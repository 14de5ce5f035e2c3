/**
  The main window's event handlers as transitions on a value.

  `State` is everything the window's slots read or change: the current tab,
  the three button-enable flags it sets on its tabs, the fields of the live
  job, the fields of the job held by the print manager (if any), the
  connections made on the shepherd's signals, and three append-only logs:
  commands issued to the shepherd and to the print manager, error dialogs
  shown, and completion reports sent back to the print tab.

  There is one function per slot of src/window.cpp; `Step` dispatches an
  `Event` to it and `Run` folds a sequence of events from the left.
 */
module WindowModel {
  import opened Jobs

  datatype Option<T> = None | Some(value: T)

  /** The tabs, in the order of the tab widget (src/window.cpp:18-27). */
  datatype Tab = Select | Prepare | Calibrate | Print | Status

  /** Signals of the shepherd (the printer-control subprocess). */
  datatype ShepherdSignal =
    | ShepherdStarted | ShepherdFinished | ShepherdProcessError
    | PrinterOnline | PrinterOffline
    | ActionMoveToComplete | ActionMoveComplete

  /** Slots that get connected to a shepherd signal. */
  datatype Slot =
    | StartedSlot | FinishedSlot | ProcessErrorSlot
    | OnlineSlot | OfflineSlot
    | AdjustBedHeightSlot | RetractSlot | ExtendSlot | MoveUpSlot | MoveDownSlot

  type Subscription = (ShepherdSignal, Slot)

  /** Commands issued to the shepherd, then to the print manager. */
  datatype Command =
    | Start
    | MoveTo(position: real)
    | Move(delta: real)
    | Send(text: string)
    | Terminate
    | ManagerPrint(job: JobFields)
    | ManagerAbort
    | ManagerTerminate

  predicate IsShepherdCommand(c: Command) {
    !(c.ManagerPrint? || c.ManagerAbort? || c.ManagerTerminate?)
  }

  /** The critical message boxes, one per failing hardware operation. */
  datatype ErrorDialog =
    | BedHeightMoveFailed | RetractionFailed | ExtensionFailed | MoveUpFailed | MoveDownFailed

  /** Completion calls made on the print tab. */
  datatype Notice =
    | AdjustBedHeightComplete(success: bool)
    | RetractBuildPlatformComplete(success: bool)
    | ExtendBuildPlatformComplete(success: bool)
    | MoveBuildPlatformUpComplete(success: bool)

  const RetractedPosition: real := 50.0
  const ExtendedPosition: real := 0.1
  const UpStep: real := 0.1
  const DownStep: real := -0.1
  /** The raw command sent after a successful bed-height move; opaque here. */
  const ZeroAxis: string := "G92 X0"
  /** The debug-only diagnostic signal (Linux numbering). */
  const SIGUSR1: int := 10

  datatype State = State(
    tab: Tab,
    sliceEnabled: bool,
    printEnabled: bool,
    stopEnabled: bool,
    job: JobFields,
    manager: Option<JobFields>,
    subscriptions: multiset<Subscription>,
    trace: seq<Command>,
    errors: seq<ErrorDialog>,
    notices: seq<Notice>,
    closed: bool,
    debugBuild: bool)

  /** The connections the constructor makes on the shepherd's signals. */
  const StartupSubscriptions: multiset<Subscription> :=
    multiset{(ShepherdStarted, StartedSlot), (ShepherdFinished, FinishedSlot),
             (ShepherdProcessError, ProcessErrorSlot),
             (PrinterOnline, OnlineSlot), (PrinterOffline, OfflineSlot)}

  /** The state after construction: Select tab, a fresh job, no print manager, shepherd started. */
  function Initial(debugBuild: bool): State {
    State(Select, false, false, false, EmptyJob, None, StartupSubscriptions,
          [Start], [], [], false, debugBuild)
  }

  /** `connect` adds one more connection, duplicates included. */
  function Connect(m: multiset<Subscription>, signal: ShepherdSignal, slot: Slot): multiset<Subscription> {
    m + multiset{(signal, slot)}
  }

  /** `disconnect` breaks every connection of that signal to that slot. */
  function Disconnect(m: multiset<Subscription>, signal: ShepherdSignal, slot: Slot): multiset<Subscription> {
    m[(signal, slot) := 0]
  }

  // ---------------------------------------------------------------------
  // Tab events (src/window.cpp:156-247)

  function SelectTabModelSelected(s: State, success: bool, fileName: string): State {
    if success then
      s.(sliceEnabled := true,
         job := s.job.(modelFileName := fileName),
         tab := if s.tab == Select then Prepare else s.tab)
    else
      s.(sliceEnabled := false)
  }

  function PrepareTabSliceStarted(s: State): State {
    s.(sliceEnabled := false, printEnabled := false)
  }

  function PrepareTabSliceComplete(s: State, success: bool): State {
    s
  }

  function PrepareTabRenderStarted(s: State): State {
    s
  }

  function PrepareTabRenderComplete(s: State, success: bool): State {
    if !success then s
    else
      s.(sliceEnabled := true, printEnabled := true,
         tab := if s.tab == Prepare then Print else s.tab)
  }

  function CalibrationTabCalibrationStarted(s: State): State {
    s.(printEnabled := false)
  }

  function CalibrationTabCalibrationComplete(s: State, success: bool): State {
    s.(printEnabled := success)
  }

  /** The live job's fields go to the print manager; the live job keeps equal fields. */
  function PrintTabPrintButtonClicked(s: State): State {
    s.(tab := Status,
       manager := Some(s.job),
       trace := s.trace + [ManagerPrint(s.job)],
       printEnabled := false,
       stopEnabled := true)
  }

  // ---------------------------------------------------------------------
  // Hardware requests and their completions (src/window.cpp:249-354)

  /** Subscribe to `signal` for `slot`, then issue `command`. */
  function Request(s: State, signal: ShepherdSignal, slot: Slot, command: Command): State {
    s.(subscriptions := Connect(s.subscriptions, signal, slot),
       trace := s.trace + [command])
  }

  /** Disconnect `slot` from `signal`; on failure show `failure`; always report `notice`. */
  function Completed(s: State, signal: ShepherdSignal, slot: Slot, success: bool,
                     failure: ErrorDialog, notice: Notice): State {
    s.(subscriptions := Disconnect(s.subscriptions, signal, slot),
       errors := if success then s.errors else s.errors + [failure],
       notices := s.notices + [notice])
  }

  function PrintTabAdjustBedHeight(s: State, newHeight: real): State {
    Request(s, ActionMoveToComplete, AdjustBedHeightSlot, MoveTo(newHeight))
  }

  function ShepherdAdjustBedHeightMoveToComplete(s: State, success: bool): State {
    var s' := s.(subscriptions := Disconnect(s.subscriptions, ActionMoveToComplete, AdjustBedHeightSlot));
    var s'' := if success then s'.(trace := s'.trace + [Send(ZeroAxis)])
               else s'.(errors := s'.errors + [BedHeightMoveFailed]);
    s''.(notices := s''.notices + [AdjustBedHeightComplete(success)])
  }

  function PrintTabRetractBuildPlatform(s: State): State {
    Request(s, ActionMoveToComplete, RetractSlot, MoveTo(RetractedPosition))
  }

  function ShepherdRetractBuildPlatformMoveToComplete(s: State, success: bool): State {
    Completed(s, ActionMoveToComplete, RetractSlot, success,
              RetractionFailed, RetractBuildPlatformComplete(success))
  }

  function PrintTabExtendBuildPlatform(s: State): State {
    Request(s, ActionMoveToComplete, ExtendSlot, MoveTo(ExtendedPosition))
  }

  function ShepherdExtendBuildPlatformMoveToComplete(s: State, success: bool): State {
    Completed(s, ActionMoveToComplete, ExtendSlot, success,
              ExtensionFailed, ExtendBuildPlatformComplete(success))
  }

  function PrintTabMoveBuildPlatformUp(s: State): State {
    Request(s, ActionMoveComplete, MoveUpSlot, Move(UpStep))
  }

  /** Disconnects from action_moveToComplete, not from the signal it was connected to. */
  function ShepherdMoveBuildPlatformUpMoveComplete(s: State, success: bool): State {
    Completed(s, ActionMoveToComplete, MoveUpSlot, success,
              MoveUpFailed, MoveBuildPlatformUpComplete(success))
  }

  function PrintTabMoveBuildPlatformDown(s: State): State {
    Request(s, ActionMoveComplete, MoveDownSlot, Move(DownStep))
  }

  /** Same wrong disconnect as moving up, and it reports through the "up" completion. */
  function ShepherdMoveBuildPlatformDownMoveComplete(s: State, success: bool): State {
    Completed(s, ActionMoveToComplete, MoveDownSlot, success,
              MoveDownFailed, MoveBuildPlatformUpComplete(success))
  }

  // ---------------------------------------------------------------------
  // Stopping, cleaning up and shutting down (src/window.cpp:135-142, 356-389)

  function StatusTabStopButtonClicked(s: State): State {
    s.(stopEnabled := false,
       trace := if s.manager.Some? then s.trace + [ManagerAbort] else s.trace)
  }

  function StatusTabCleanUpAfterPrint(s: State): State {
    s.(manager := None, stopEnabled := false)
  }

  function CloseEvent(s: State): State {
    var s' := if s.manager.Some? then s.(trace := s.trace + [ManagerTerminate]) else s;
    s'.(trace := s'.trace + [Terminate], closed := true)
  }

  function SignalHandlerSignalReceived(s: State, signalNumber: int): State {
    if s.debugBuild && signalNumber == SIGUSR1 then s else CloseEvent(s)
  }

  // ---------------------------------------------------------------------
  // Event sequences

  /** Signals of the prepare tab. */
  datatype PrepareTabSignal =
    | SliceStarted
    | SliceComplete(success: bool)
    | RenderStarted
    | RenderComplete(success: bool)

  /** Signals of the calibration tab (the window's slots for them are never connected). */
  datatype CalibrationTabSignal =
    | CalibrationStarted
    | CalibrationComplete(success: bool)

  /** Signals of the print tab. */
  datatype PrintTabSignal =
    | PrintButtonClicked
    | AdjustBedHeight(newHeight: real)
    | RetractBuildPlatform
    | ExtendBuildPlatform
    | MoveBuildPlatformUp
    | MoveBuildPlatformDown

  /** Invocations of the slots connected to the shepherd's completion signals. */
  datatype MoveCompletion =
    | AdjustBedHeightMoveToComplete(success: bool)
    | RetractBuildPlatformMoveToComplete(success: bool)
    | ExtendBuildPlatformMoveToComplete(success: bool)
    | MoveBuildPlatformUpMoveComplete(success: bool)
    | MoveBuildPlatformDownMoveComplete(success: bool)

  /** Signals of the status tab. */
  datatype StatusTabSignal =
    | StopButtonClicked
    | PrintComplete

  /** What can happen to the window: its slots being invoked, grouped by
      sender, plus the user switching tabs and the tabs writing to the
      shared live job. */
  datatype Event =
    | ModelSelected(success: bool, fileName: string)
    | FromPrepareTab(prepare: PrepareTabSignal)
    | FromCalibrationTab(calibration: CalibrationTabSignal)
    | FromPrintTab(request: PrintTabSignal)
    | FromShepherd(completion: MoveCompletion)
    | FromStatusTab(status: StatusTabSignal)
    | CloseRequested
    | SignalReceived(signalNumber: int)
    | TabChosen(chosen: Tab)
    | JobEdited(edited: JobFields)

  function StepPrepareTab(s: State, p: PrepareTabSignal): State {
    match p
    case SliceStarted => PrepareTabSliceStarted(s)
    case SliceComplete(success) => PrepareTabSliceComplete(s, success)
    case RenderStarted => PrepareTabRenderStarted(s)
    case RenderComplete(success) => PrepareTabRenderComplete(s, success)
  }

  function StepCalibrationTab(s: State, c: CalibrationTabSignal): State {
    match c
    case CalibrationStarted => CalibrationTabCalibrationStarted(s)
    case CalibrationComplete(success) => CalibrationTabCalibrationComplete(s, success)
  }

  function StepPrintTab(s: State, r: PrintTabSignal): State {
    match r
    case PrintButtonClicked => PrintTabPrintButtonClicked(s)
    case AdjustBedHeight(newHeight) => PrintTabAdjustBedHeight(s, newHeight)
    case RetractBuildPlatform => PrintTabRetractBuildPlatform(s)
    case ExtendBuildPlatform => PrintTabExtendBuildPlatform(s)
    case MoveBuildPlatformUp => PrintTabMoveBuildPlatformUp(s)
    case MoveBuildPlatformDown => PrintTabMoveBuildPlatformDown(s)
  }

  function StepShepherd(s: State, c: MoveCompletion): State {
    match c
    case AdjustBedHeightMoveToComplete(success) => ShepherdAdjustBedHeightMoveToComplete(s, success)
    case RetractBuildPlatformMoveToComplete(success) => ShepherdRetractBuildPlatformMoveToComplete(s, success)
    case ExtendBuildPlatformMoveToComplete(success) => ShepherdExtendBuildPlatformMoveToComplete(s, success)
    case MoveBuildPlatformUpMoveComplete(success) => ShepherdMoveBuildPlatformUpMoveComplete(s, success)
    case MoveBuildPlatformDownMoveComplete(success) => ShepherdMoveBuildPlatformDownMoveComplete(s, success)
  }

  function StepStatusTab(s: State, t: StatusTabSignal): State {
    match t
    case StopButtonClicked => StatusTabStopButtonClicked(s)
    case PrintComplete => StatusTabCleanUpAfterPrint(s)
  }

  function Step(s: State, e: Event): State {
    match e
    case ModelSelected(success, fileName) => SelectTabModelSelected(s, success, fileName)
    case FromPrepareTab(p) => StepPrepareTab(s, p)
    case FromCalibrationTab(c) => StepCalibrationTab(s, c)
    case FromPrintTab(r) => StepPrintTab(s, r)
    case FromShepherd(c) => StepShepherd(s, c)
    case FromStatusTab(t) => StepStatusTab(s, t)
    case CloseRequested => CloseEvent(s)
    case SignalReceived(n) => SignalHandlerSignalReceived(s, n)
    case TabChosen(t) => s.(tab := t)
    case JobEdited(j) => s.(job := j)
  }

  /** The state after handling `es` in order, starting from `s`. */
  function Run(s: State, es: seq<Event>): State
    decreases |es|
  {
    if es == [] then s else Step(Run(s, es[..|es| - 1]), es[|es| - 1])
  }
}
