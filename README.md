# The main window of a resin-printer front end, in Dafny

`Window` (src/window.cpp) runs a five-tab front end for a resin printer:
Select, Prepare, Calibrate, Print and Status. Its slots react to the tabs and
to the *shepherd*, the printer-control subprocess. They do the following:

- switch tabs;
- enable or disable the tabs' slice, print and stop buttons;
- edit the live print job;
- hand the live job to a print manager when a print starts;
- connect one-shot slots to the shepherd's completion signals before issuing
  a move, and disconnect them when the move completes;
- show an error box when a move fails;
- shut down the print manager and the shepherd on close.

The model is in four files:

- `jobs.dfy` (module `Jobs`): the print job. It is a heap object
  (`PrintJob`) with a member-wise copy, and `JobFields` is its value.
- `window_model.dfy` (module `WindowModel`): the window as a value.
  - `State` holds:
    - the current tab and the three button flags;
    - the live job's fields, and the fields of the job held by the print
      manager, if any;
    - the multiset of connections on the shepherd's signals;
    - three append-only logs: commands to the shepherd and to the print
      manager, error boxes shown, and completion calls made on the print tab.
  - There is one transition function per slot, named after it.
  - `Event` names a slot invocation, grouped by the sending object, plus the
    user picking a tab and a tab writing the live job.
  - `Step` dispatches one event. `Run` folds a sequence of events.
- `window.dfy` (module `MainWindow`): the window as an object.
  - `Window` is a class whose fields the slots update in place. Each slot
    method ensures `View() == WindowModel.<slot>(old(View()))`. The two slots
    that do nothing have an empty `modifies` frame, and the frame is what
    makes that promise.
  - Alongside that, each method says which objects it keeps or creates: the
    live job, the print manager, and the job each tab is bound to.
  - `Valid()` states two invariants:
    - every job-bound tab holds the live job;
    - the print manager's job is never the live job.
  - `PrintManager` is foreign code. The model keeps only the job it was
    given and the signals forwarded to the status tab.
- `window_properties.dfy` (module `WindowProperties`): lemmas about the value
  model.
  - Some lemmas pin down one slot's effect.
  - The rest are inductive lemmas over arbitrary event sequences. They compare
    `Run` with per-event reference tables, written independently of the
    handlers:
    - which button an event sets, and to what;
    - which commands each event issues;
    - which error boxes and completion calls it causes.
  - Other inductive lemmas cover the shutdown order, the print manager's job,
    and the connections on `action_moveToComplete` / `action_moveComplete`.

The source has three quirks, and the model keeps them:

- The up and down move slots connect to `action_moveComplete` but disconnect
  from `action_moveToComplete`. Their connection therefore stays:
  `MoveUpRoundTripsAccumulate` and `MoveDownRoundTripsAccumulate` show that
  n completed moves leave n more connections.
- The down completion reports through `moveBuildPlatformUpComplete`.
- The calibration slots are never connected by the constructor. They exist as
  methods and events, and nothing in the window invokes them.

Two behaviours of the code are worth stating plainly:

- When a print starts, the existing job object goes to the print manager,
  and the new live job is a field-equal copy (`*newJob = *printJob`), not an
  empty record.
- A failed render returns without changing anything.

## Model

| member | source | states |
|---|---|---|
| Jobs.PrintJob.constructor | src/window.cpp:45 | a new job record holds empty strings and zero numbers |
| Jobs.PrintJob.Copy | src/window.cpp:232-233 | the result is a newly allocated job whose seven fields equal this job's |
| Jobs.PrintJob.CopyFrom | src/window.cpp:233 | after the member-wise assignment this job's fields are the other job's old fields |
| MainWindow.BindAll | src/window.cpp:242-243 | after `printJobChanged` the select, prepare, print and status tabs, and only they, hold the given job |
| MainWindow.PrintManager.constructor | src/window.cpp:235 | a new print manager holds the job it is given and forwards nothing yet |
| MainWindow.NewPrintManager | src/window.cpp:235-240 | the manager is new, holds the given job, and forwards its four signals to the status tab |
| MainWindow.Window.constructor | src/window.cpp:41-128 | Select tab, all buttons off, a new empty live job bound to every job tab, no print manager, the five startup connections, and the shepherd started |
| MainWindow.Window.SelectTabModelSelected | src/window.cpp:156-167 | the new state is the model-selected transition of the old one: on success the slice button is on, the live job's file name is set and Select moves to Prepare; on failure only the slice button goes off |
| MainWindow.Window.PrepareTabSliceStarted | src/window.cpp:169-173 | slice and print buttons off, nothing else changes |
| MainWindow.Window.PrepareTabSliceComplete | src/window.cpp:175-180 | changes nothing, on success or failure |
| MainWindow.Window.PrepareTabRenderStarted | src/window.cpp:182-184 | changes nothing |
| MainWindow.Window.PrepareTabRenderComplete | src/window.cpp:186-197 | failure changes nothing; success turns slice and print on and moves Prepare to Print |
| MainWindow.Window.CalibrationTabCalibrationStarted | src/window.cpp:199-202 | print button off, nothing else changes |
| MainWindow.Window.CalibrationTabCalibrationComplete | src/window.cpp:204-207 | print button set to the success flag, nothing else changes |
| MainWindow.Window.PrintTabPrintButtonClicked | src/window.cpp:209-247 | Status tab; a new print manager holding the old live job object forwards its four signals and is told to print its fields; the live job is a new object with equal fields, bound to every job tab; print off, stop on |
| MainWindow.Window.EditLiveJob | src/window.cpp:240-243 | a tab writing the live job changes only the live job's fields; the job held by the print manager keeps its fields |
| MainWindow.Window.PrintTabAdjustBedHeight | src/window.cpp:249-254 | connects the bed-height slot to `action_moveToComplete`, then issues one `MoveTo(newHeight)` |
| MainWindow.Window.ShepherdAdjustBedHeightMoveToComplete | src/window.cpp:256-270 | disconnects that slot; on success sends `G92 X0`, on failure shows one error; always reports `adjustBedHeightComplete(success)` |
| MainWindow.Window.PrintTabRetractBuildPlatform | src/window.cpp:272-277 | connects the retract slot to `action_moveToComplete`, then issues `MoveTo(50.0)` |
| MainWindow.Window.ShepherdRetractBuildPlatformMoveToComplete | src/window.cpp:279-291 | disconnects the retract slot, shows an error only on failure, reports `retractBuildPlatformComplete(success)` |
| MainWindow.Window.PrintTabExtendBuildPlatform | src/window.cpp:293-298 | connects the extend slot to `action_moveToComplete`, then issues `MoveTo(0.1)` |
| MainWindow.Window.ShepherdExtendBuildPlatformMoveToComplete | src/window.cpp:300-312 | disconnects the extend slot, shows an error only on failure, reports `extendBuildPlatformComplete(success)` |
| MainWindow.Window.PrintTabMoveBuildPlatformUp | src/window.cpp:314-319 | connects the up slot to `action_moveComplete`, then issues `Move(0.1)` |
| MainWindow.Window.ShepherdMoveBuildPlatformUpMoveComplete | src/window.cpp:321-333 | disconnects the up slot from `action_moveToComplete` (not the signal it was connected to), shows an error only on failure, reports `moveBuildPlatformUpComplete(success)` |
| MainWindow.Window.PrintTabMoveBuildPlatformDown | src/window.cpp:335-340 | connects the down slot to `action_moveComplete`, then issues `Move(-0.1)` |
| MainWindow.Window.ShepherdMoveBuildPlatformDownMoveComplete | src/window.cpp:342-354 | the same wrong disconnect; shows an error only on failure; reports through `moveBuildPlatformUpComplete(success)` |
| MainWindow.Window.StatusTabStopButtonClicked | src/window.cpp:356-362 | stop off; one abort to the print manager exactly when there is one |
| MainWindow.Window.StatusTabCleanUpAfterPrint | src/window.cpp:364-371 | no print manager afterwards, stop off, nothing else changes |
| MainWindow.Window.CloseEvent | src/window.cpp:135-142 | terminate to the print manager if there is one, then terminate to the shepherd, then the window is closed |
| MainWindow.Window.SignalHandlerSignalReceived | src/window.cpp:373-390 | SIGUSR1 in a debug build changes nothing; every other signal, and every signal in a release build, closes the window |
| WindowProperties.ModelSelectedEffect | src/window.cpp:156-167 | success turns the slice button on, sets the file name and moves Select, and only Select, to Prepare; failure turns the slice button off and keeps job and tab; nothing else changes |
| WindowProperties.SliceRenderCycle | src/window.cpp:169-197 | a slice start, slice completion, render start and render completion leave both buttons equal to the render's outcome, move Prepare to Print only after a successful render, and change nothing else; a failed render leaves both off and the tab where it was |
| WindowProperties.RenderCompleteEffect | src/window.cpp:186-197 | a failed render changes nothing; a successful one turns slice and print on and moves the tab from Prepare, and only from Prepare, to Print |
| WindowProperties.CalibrationCycle | src/window.cpp:199-207 | a calibration start followed by its completion changes only the print button, which ends equal to the success flag |
| WindowProperties.PrintHandoff | src/window.cpp:209-247 | the manager receives the live job's fields and the live job keeps equal fields; one print command; Status, print off, stop on; connections and slice button unchanged |
| WindowProperties.AdjustBedHeightRoundTrip | src/window.cpp:249-270 | a request and its completion connect exactly one slot and leave the connections as before; one `MoveTo`, then one `G92 X0` on success or one error box on failure; one completion call |
| WindowProperties.StopButtonEffect | src/window.cpp:356-362 | stop off, an abort exactly when a manager exists, nothing else changes |
| WindowProperties.CleanUpIdempotent | src/window.cpp:364-371 | clean-up leaves no manager and stop off, and a second clean-up changes nothing |
| WindowProperties.StopThenFinish | src/window.cpp:356-371 | stop then print-complete releases the manager, leaves stop off and aborts once, only when a print was running |
| WindowProperties.CloseTerminatesManagerFirst | src/window.cpp:135-142 | closing appends terminate for the manager (when present) immediately before the shepherd's terminate |
| WindowProperties.SignalLeadsToClose | src/window.cpp:373-390 | SIGUSR1 in a debug build is a no-op; any other signal is a close |
| WindowProperties.StepButtons | src/window.cpp:156-371 | every event sets each of the three buttons exactly as its row of the verdict tables says |
| WindowProperties.SliceButtonRule | src/window.cpp:156-197 | after any event sequence the slice button is what the last event that sets it decided (model selection, slice start, successful render), or its old value |
| WindowProperties.PrintButtonRule | src/window.cpp:169-247 | after any event sequence the print button is what the last of slice start, successful render, calibration start or completion, or print decided |
| WindowProperties.StopButtonRule | src/window.cpp:245-371 | after any event sequence the stop button is on exactly when the last of print, stop and print-complete was a print, and keeps its old value when none occurred |
| WindowProperties.PrintEnabledNeedsSuccess | src/window.cpp:169-247 | if the print button was off and is on after a sequence, some successful render or calibration occurred and no later event touched the button |
| WindowProperties.StepTrace | src/window.cpp:135-390 | every event appends exactly the commands of its row of the command table to the trace |
| WindowProperties.LogsOnlyGrow | src/window.cpp:135-390 | the command trace, the error boxes and the completion calls only grow, and the build kind never changes |
| WindowProperties.ShepherdReceivesExactly | src/window.cpp:135-390 | over any event sequence the commands the window sends the shepherd are exactly the concatenated shepherd commands of the events, in order |
| WindowProperties.StepFeedback | src/window.cpp:256-354 | every event adds exactly the error box and the completion call of its row of the tables |
| WindowProperties.FeedbackIsExact | src/window.cpp:256-354 | over any sequence, error boxes appear exactly for failed moves and every completion reports back, in order; a downward move reports as upward |
| WindowProperties.ShutdownOrder | src/window.cpp:135-142 | if every manager terminate in the trace is immediately followed by the shepherd's terminate, that stays true after any event sequence |
| WindowProperties.StepManager | src/window.cpp:209-371 | no event but print changes the manager, except print-complete, which releases it; the build kind never changes |
| WindowProperties.ManagerChangesOnlyAtPrintOrCleanUp | src/window.cpp:235-371 | without a further print, the manager after a sequence is released if some print-complete occurred, and otherwise is the one before it |
| WindowProperties.HandoffSurvivesLaterEvents | src/window.cpp:232-243 | after a print starts, no events short of another print or a print-complete change the job held by the manager, whatever is written to the live job |
| WindowProperties.StepPendingMoveTo | src/window.cpp:249-312 | each absolute-move request adds one connection on `action_moveToComplete`; no other event adds one |
| WindowProperties.AtMostOneMoveToPending | src/window.cpp:249-312 | if absolute moves are requested only while none is awaited, at most one is ever awaited |
| WindowProperties.MoveToRoundTripRestores | src/window.cpp:249-312 | each absolute-move request connects exactly its slot, and its completion restores the connections |
| WindowProperties.RetractRoundTripsRestore | src/window.cpp:272-291 | any number of completed retractions leave the connections as they were |
| WindowProperties.MoveCompletionKeepsConnection | src/window.cpp:314-354 | completing an up or down move leaves that slot's connection to `action_moveComplete` in place |
| WindowProperties.UpTripLeaks | src/window.cpp:314-333 | one completed move up adds one connection of the up slot |
| WindowProperties.DownTripLeaks | src/window.cpp:335-354 | one completed move down adds one connection of the down slot |
| WindowProperties.MoveUpRoundTripsAccumulate | src/window.cpp:314-333 | n completed moves up leave n more connections of the up slot |
| WindowProperties.MoveDownRoundTripsAccumulate | src/window.cpp:335-354 | n completed moves down leave n more connections of the down slot |
| WindowProperties.InitialInvariants | src/window.cpp:41-128 | the window starts with no absolute move awaited, a well-ordered trace and no print manager |

## Left out

- Widget construction and layout: margins, sizes, window flags, adding the
  tabs (src/window.cpp:53-55, 70-127). Only the resulting initial state is
  kept.
- Message-box texts and debug or `fprintf` output. An error box is one
  `ErrorDialog` entry, and printing the job's fields is not modelled.
- The shepherd's own slots `shepherd_started`, `shepherd_finished` and
  `shepherd_processError` (src/window.cpp:144-154). They only log. Their
  connections are part of the startup connection multiset.
- The shepherd's protocol: `doMoveTo`, `doMove`, `doSend` and `doTerminate`
  are commands appended to a trace. `G92 X0` is an opaque string. Which slots
  a signal actually reaches at run time is not modelled: an event is the
  invocation of one slot.
- Print manager internals, its own signals, and the timing of `deleteLater`.
  The manager is foreign code. The model records its job, its forwarded
  signals and the commands sent to it.
- `MainWindow.PrintManager.constructor`: construction and `print` are joined.
  The job is fixed when the manager is created, and the window records the
  print command.
- The OS side of signals: subscribing, unsubscribing, the destructor, and the
  object dumps on SIGUSR1 (src/window.cpp:29-37, 42-43, 130-133, 377-381).
  SIGUSR1 is taken to be signal 10. A debug build is a constructor argument.
- Where the close event itself comes from: `close()` is modelled as a call of
  `CloseEvent`, and the `accept` of the event as the `closed` flag.
- Modal error boxes run to completion. Each failing completion slot shows a
  `QMessageBox::critical` before its completion call (src/window.cpp:261-264,
  284-287, 305-308, 326-329, 347-350). These slots are
  `shepherd_adjustBedHeightMoveToComplete`,
  `shepherd_retractBuildPlatformMoveToComplete`,
  `shepherd_extendBuildPlatformMoveToComplete`,
  `shepherd_moveBuildPlatformUpMoveComplete` and
  `shepherd_moveBuildPlatformDownMoveComplete`. The box runs a nested event
  loop, so another completion or a signal-triggered `close()` can run between
  the box and the completion call. The model runs each of these five slots as
  one atomic step. The order in `FeedbackIsExact` is therefore the order of
  whole slot invocations.
- Commands other code sends the shepherd: the print manager and the
  calibration tab share it (src/window.cpp:63, 235). The trace holds only the
  commands the window itself issues.
- `calibrationTab->setShepherd` (src/window.cpp:63): the calibration tab's
  use of the shepherd is not part of this model.
- The print job's declaration is not part of this model. A new job is taken
  to hold empty strings and zero numbers.
- The tabs' own buttons and their starting state: the three flags start off.
- Floating point: heights and steps are `real` constants, with no arithmetic.
- `WindowProperties.AtMostOneMoveToPending`: the guard that stops the print
  tab from issuing a second absolute move while one is awaited lives in the
  print tab. That code is not part of this model, so the guard is a
  precondition.
