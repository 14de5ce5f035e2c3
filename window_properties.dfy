/**
  Properties of the main window's event handling, stated on `WindowModel`.

  Single-handler lemmas restate what one slot promises in terms of what a
  caller can observe; the lemmas over event sequences compare `Run` with
  independent, per-event reference tables (which buttons an event touches,
  which commands and dialogs it produces) and with invariants of the logs
  and of the connection multiset.
 */
module WindowProperties {
  import opened Jobs
  import opened WindowModel

  // =====================================================================
  // Folding event sequences

  lemma {:induction false} RunConcat(s: State, a: seq<Event>, b: seq<Event>)
    ensures Run(s, a + b) == Run(Run(s, a), b)
    decreases |b|
  {
    if b == [] {
      assert a + b == a;
    } else {
      var b' := b[..|b| - 1];
      assert (a + b)[..|a + b| - 1] == a + b';
      assert (a + b)[|a + b| - 1] == b[|b| - 1];
      RunConcat(s, a, b');
    }
  }

  /** One retraction and its completion, and likewise one move up or down. */
  function RetractTrip(success: bool): seq<Event> {
    [FromPrintTab(RetractBuildPlatform), FromShepherd(RetractBuildPlatformMoveToComplete(success))]
  }

  function UpTrip(success: bool): seq<Event> {
    [FromPrintTab(MoveBuildPlatformUp), FromShepherd(MoveBuildPlatformUpMoveComplete(success))]
  }

  function DownTrip(success: bool): seq<Event> {
    [FromPrintTab(MoveBuildPlatformDown), FromShepherd(MoveBuildPlatformDownMoveComplete(success))]
  }

  lemma RunPair(s: State, a: Event, b: Event)
    ensures Run(s, [a, b]) == Step(Step(s, a), b)
  {
    assert [a, b][..1] == [a] && [a][..0] == [];
    assert Run(s, [a]) == Step(s, a);
  }

  /** `block` repeated `n` times. */
  function Repeat(block: seq<Event>, n: nat): seq<Event> {
    if n == 0 then [] else Repeat(block, n - 1) + block
  }

  // =====================================================================
  // Single handlers

  /** src/window.cpp:156-167 */
  lemma ModelSelectedEffect(s: State, success: bool, fileName: string)
    ensures var r := SelectTabModelSelected(s, success, fileName);
      && r.sliceEnabled == success
      && r.job == (if success then s.job.(modelFileName := fileName) else s.job)
      && r.tab == (if success && s.tab == Select then Prepare else s.tab)
      && r.(sliceEnabled := s.sliceEnabled, job := s.job, tab := s.tab) == s
  {
  }

  /**
    src/window.cpp:169-197: a full slice-and-render pass leaves both buttons
    equal to the render's outcome; only a successful render moves on from
    Prepare, and nothing else changes.
   */
  lemma SliceRenderCycle(s: State, sliced: bool, rendered: bool)
    ensures var r := Run(s, [FromPrepareTab(SliceStarted), FromPrepareTab(SliceComplete(sliced)),
                             FromPrepareTab(RenderStarted), FromPrepareTab(RenderComplete(rendered))]);
      && r.sliceEnabled == rendered && r.printEnabled == rendered
      && r.tab == (if rendered && s.tab == Prepare then Print else s.tab)
      && r.(sliceEnabled := s.sliceEnabled, printEnabled := s.printEnabled, tab := s.tab) == s
  {
    var a, b := FromPrepareTab(SliceStarted), FromPrepareTab(SliceComplete(sliced));
    var c, d := FromPrepareTab(RenderStarted), FromPrepareTab(RenderComplete(rendered));
    assert [a, b, c, d] == [a, b] + [c, d];
    RunConcat(s, [a, b], [c, d]);
    RunPair(s, a, b);
    RunPair(Run(s, [a, b]), c, d);
  }

  /** src/window.cpp:186-197: failure changes nothing, success enables both and moves on from Prepare only. */
  lemma RenderCompleteEffect(s: State, success: bool)
    ensures var r := PrepareTabRenderComplete(s, success);
      && (!success ==> r == s)
      && (success ==> r.sliceEnabled && r.printEnabled)
      && r.tab == (if success && s.tab == Prepare then Print else s.tab)
      && r.(sliceEnabled := s.sliceEnabled, printEnabled := s.printEnabled, tab := s.tab) == s
  {
  }

  /** src/window.cpp:199-207: a calibration pass changes only the print button, to its outcome. */
  lemma CalibrationCycle(s: State, success: bool)
    ensures Run(s, [FromCalibrationTab(CalibrationStarted), FromCalibrationTab(CalibrationComplete(success))])
            == s.(printEnabled := success)
  {
    RunPair(s, FromCalibrationTab(CalibrationStarted), FromCalibrationTab(CalibrationComplete(success)));
  }

  /** src/window.cpp:209-247: the manager is given the live job's fields, the live job keeps equal ones. */
  lemma PrintHandoff(s: State)
    ensures var r := PrintTabPrintButtonClicked(s);
      && r.manager == Some(s.job)
      && r.job == s.job
      && r.trace == s.trace + [ManagerPrint(s.job)]
      && r.tab == Status && !r.printEnabled && r.stopEnabled
      && r.sliceEnabled == s.sliceEnabled && r.subscriptions == s.subscriptions
  {
  }

  /** src/window.cpp:249-270: one MoveTo, then on success one zeroing command, on failure one dialog. */
  lemma AdjustBedHeightRoundTrip(s: State, height: real, success: bool)
    requires s.subscriptions[(ActionMoveToComplete, AdjustBedHeightSlot)] == 0
    ensures var mid := PrintTabAdjustBedHeight(s, height);
            var r := ShepherdAdjustBedHeightMoveToComplete(mid, success);
      && mid.subscriptions[(ActionMoveToComplete, AdjustBedHeightSlot)] == 1
      && mid.trace == s.trace + [MoveTo(height)]
      && r.subscriptions == s.subscriptions
      && r.trace == s.trace + [MoveTo(height)] + (if success then [Send(ZeroAxis)] else [])
      && r.errors == s.errors + (if success then [] else [BedHeightMoveFailed])
      && r.notices == s.notices + [AdjustBedHeightComplete(success)]
  {
    assert s.subscriptions + multiset{(ActionMoveToComplete, AdjustBedHeightSlot)}
             [(ActionMoveToComplete, AdjustBedHeightSlot) := 0] == s.subscriptions;
  }

  /** src/window.cpp:356-362 */
  lemma StopButtonEffect(s: State)
    ensures var r := StatusTabStopButtonClicked(s);
      && !r.stopEnabled
      && r.trace == s.trace + (if s.manager.Some? then [ManagerAbort] else [])
      && r.(stopEnabled := s.stopEnabled, trace := s.trace) == s
  {
  }

  /** src/window.cpp:364-371: a second clean-up has no further effect. */
  lemma CleanUpIdempotent(s: State)
    ensures var r := StatusTabCleanUpAfterPrint(s);
      && r.manager.None? && !r.stopEnabled
      && StatusTabCleanUpAfterPrint(r) == r
  {
  }

  /** Stop, then the print completes: one abort if there was a manager, which is then released. */
  lemma StopThenFinish(s: State)
    ensures var r := Run(s, [FromStatusTab(StopButtonClicked), FromStatusTab(PrintComplete)]);
      && r.manager.None? && !r.stopEnabled
      && r.trace == s.trace + (if s.manager.Some? then [ManagerAbort] else [])
  {
    var es := [FromStatusTab(StopButtonClicked), FromStatusTab(PrintComplete)];
    assert es[..1] == [FromStatusTab(StopButtonClicked)];
    assert es[..1][..0] == [];
  }

  /** src/window.cpp:135-142: the print manager is told to terminate right before the shepherd. */
  lemma CloseTerminatesManagerFirst(s: State)
    ensures var r := CloseEvent(s);
      && r.closed
      && r.trace == s.trace + (if s.manager.Some? then [ManagerTerminate, Terminate] else [Terminate])
  {
  }

  /** src/window.cpp:373-389: every signal closes the window except SIGUSR1 in a debug build. */
  lemma SignalLeadsToClose(s: State, signalNumber: int)
    ensures var r := SignalHandlerSignalReceived(s, signalNumber);
      && (s.debugBuild && signalNumber == SIGUSR1 ==> r == s)
      && (!s.debugBuild || signalNumber != SIGUSR1 ==> r == CloseEvent(s) && r.closed)
  {
  }

  // =====================================================================
  // Button enablement over event sequences

  function Apply(verdict: Option<bool>, current: bool): bool {
    match verdict
    case Some(b) => b
    case None => current
  }

  /** The value of a flag after `es`: the verdict of the last event that sets it. */
  function LastVerdict(es: seq<Event>, verdict: Event -> Option<bool>, initial: bool): bool
    decreases |es|
  {
    if es == [] then initial
    else Apply(verdict(es[|es| - 1]), LastVerdict(es[..|es| - 1], verdict, initial))
  }

  /** Events that set the prepare tab's slice button, and to what. */
  function SliceVerdict(e: Event): Option<bool> {
    match e
    case ModelSelected(success, _) => Some(success)
    case FromPrepareTab(SliceStarted) => Some(false)
    case FromPrepareTab(RenderComplete(success)) => if success then Some(true) else None
    case _ => None
  }

  /** Events that set the print tab's print button, and to what. */
  function PrintVerdict(e: Event): Option<bool> {
    match e
    case FromPrepareTab(SliceStarted) => Some(false)
    case FromPrepareTab(RenderComplete(success)) => if success then Some(true) else None
    case FromCalibrationTab(CalibrationStarted) => Some(false)
    case FromCalibrationTab(CalibrationComplete(success)) => Some(success)
    case FromPrintTab(PrintButtonClicked) => Some(false)
    case _ => None
  }

  /** Events that set the status tab's stop button, and to what. */
  function StopVerdict(e: Event): Option<bool> {
    match e
    case FromPrintTab(PrintButtonClicked) => Some(true)
    case FromStatusTab(_) => Some(false)
    case _ => None
  }

  /** The three flags after one event, as the verdict tables say. */
  predicate ButtonsFollowVerdicts(x: State, e: Event) {
    && Step(x, e).sliceEnabled == Apply(SliceVerdict(e), x.sliceEnabled)
    && Step(x, e).printEnabled == Apply(PrintVerdict(e), x.printEnabled)
    && Step(x, e).stopEnabled == Apply(StopVerdict(e), x.stopEnabled)
  }

  lemma StepButtonsPrepareTab(x: State, p: PrepareTabSignal)
    ensures ButtonsFollowVerdicts(x, FromPrepareTab(p))
  {
    match p {
      case SliceStarted =>
      case SliceComplete(_) =>
      case RenderStarted =>
      case RenderComplete(_) =>
    }
  }

  lemma StepButtonsPrintTab(x: State, r: PrintTabSignal)
    ensures ButtonsFollowVerdicts(x, FromPrintTab(r))
  {
    match r {
      case PrintButtonClicked =>
      case AdjustBedHeight(_) =>
      case RetractBuildPlatform =>
      case ExtendBuildPlatform =>
      case MoveBuildPlatformUp =>
      case MoveBuildPlatformDown =>
    }
  }

  lemma StepButtonsShepherd(x: State, c: MoveCompletion)
    ensures ButtonsFollowVerdicts(x, FromShepherd(c))
  {
    match c {
      case AdjustBedHeightMoveToComplete(_) =>
      case RetractBuildPlatformMoveToComplete(_) =>
      case ExtendBuildPlatformMoveToComplete(_) =>
      case MoveBuildPlatformUpMoveComplete(_) =>
      case MoveBuildPlatformDownMoveComplete(_) =>
    }
  }

  lemma StepButtons(x: State, e: Event)
    ensures ButtonsFollowVerdicts(x, e)
  {
    match e {
      case ModelSelected(_, _) =>
      case FromPrepareTab(p) => StepButtonsPrepareTab(x, p);
      case FromCalibrationTab(c) =>
        match c {
          case CalibrationStarted =>
          case CalibrationComplete(_) =>
        }
      case FromPrintTab(r) => StepButtonsPrintTab(x, r);
      case FromShepherd(c) => StepButtonsShepherd(x, c);
      case FromStatusTab(t) =>
        match t {
          case StopButtonClicked =>
          case PrintComplete =>
        }
      case CloseRequested =>
      case SignalReceived(_) =>
      case TabChosen(_) =>
      case JobEdited(_) =>
    }
  }

  lemma {:induction false} SliceButtonRule(s: State, es: seq<Event>)
    ensures Run(s, es).sliceEnabled == LastVerdict(es, SliceVerdict, s.sliceEnabled)
    decreases |es|
  {
    if es != [] {
      SliceButtonRule(s, es[..|es| - 1]);
      StepButtons(Run(s, es[..|es| - 1]), es[|es| - 1]);
    }
  }

  lemma {:induction false} PrintButtonRule(s: State, es: seq<Event>)
    ensures Run(s, es).printEnabled == LastVerdict(es, PrintVerdict, s.printEnabled)
    decreases |es|
  {
    if es != [] {
      PrintButtonRule(s, es[..|es| - 1]);
      StepButtons(Run(s, es[..|es| - 1]), es[|es| - 1]);
    }
  }

  lemma {:induction false} StopButtonRule(s: State, es: seq<Event>)
    ensures Run(s, es).stopEnabled == LastVerdict(es, StopVerdict, s.stopEnabled)
    decreases |es|
  {
    if es != [] {
      StopButtonRule(s, es[..|es| - 1]);
      StepButtons(Run(s, es[..|es| - 1]), es[|es| - 1]);
    }
  }

  /** A flag that ends up set was set by some event that no later event overrode. */
  lemma {:induction false} LastVerdictWitness(es: seq<Event>, verdict: Event -> Option<bool>)
    requires LastVerdict(es, verdict, false)
    ensures exists k :: 0 <= k < |es| && verdict(es[k]) == Some(true)
              && forall j :: k < j < |es| ==> verdict(es[j]).None?
    decreases |es|
  {
    var n := |es|;
    var es' := es[..n - 1];
    if verdict(es[n - 1]).None? {
      LastVerdictWitness(es', verdict);
      var k :| 0 <= k < |es'| && verdict(es'[k]) == Some(true)
               && forall j :: k < j < |es'| ==> verdict(es'[j]).None?;
      assert es[k] == es'[k];
      forall j | k < j < n ensures verdict(es[j]).None? {
        if j < n - 1 {
          assert es[j] == es'[j];
        }
      }
    }
  }

  lemma PrintVerdictTrue(e: Event)
    ensures PrintVerdict(e) == Some(true)
            <==> e == FromPrepareTab(RenderComplete(true)) || e == FromCalibrationTab(CalibrationComplete(true))
  {
  }

  /**
    A print can be started only after a successful render or calibration
    that no later slice, calibration start or print has cancelled.
   */
  lemma PrintEnabledNeedsSuccess(s: State, es: seq<Event>)
    requires !s.printEnabled && Run(s, es).printEnabled
    ensures exists k :: 0 <= k < |es|
              && (es[k] == FromPrepareTab(RenderComplete(true)) || es[k] == FromCalibrationTab(CalibrationComplete(true)))
              && forall j :: k < j < |es| ==> PrintVerdict(es[j]).None?
  {
    PrintButtonRule(s, es);
    LastVerdictWitness(es, PrintVerdict);
    var k :| 0 <= k < |es| && PrintVerdict(es[k]) == Some(true)
             && forall j :: k < j < |es| ==> PrintVerdict(es[j]).None?;
    PrintVerdictTrue(es[k]);
  }

  // =====================================================================
  // What the logs record

  /** What closing sends: the print manager first, if there is one, then the shepherd. */
  function ShutdownCommands(hasManager: bool): seq<Command> {
    if hasManager then [ManagerTerminate, Terminate] else [Terminate]
  }

  /** The commands one event issues in state `x`, read off the handlers of src/window.cpp. */
  function CommandsFor(e: Event, x: State): seq<Command> {
    match e
    case FromPrintTab(PrintButtonClicked) => [ManagerPrint(x.job)]
    case FromPrintTab(AdjustBedHeight(height)) => [MoveTo(height)]
    case FromPrintTab(RetractBuildPlatform) => [MoveTo(RetractedPosition)]
    case FromPrintTab(ExtendBuildPlatform) => [MoveTo(ExtendedPosition)]
    case FromPrintTab(MoveBuildPlatformUp) => [Move(UpStep)]
    case FromPrintTab(MoveBuildPlatformDown) => [Move(DownStep)]
    case FromShepherd(AdjustBedHeightMoveToComplete(success)) => if success then [Send(ZeroAxis)] else []
    case FromStatusTab(StopButtonClicked) => if x.manager.Some? then [ManagerAbort] else []
    case CloseRequested => ShutdownCommands(x.manager.Some?)
    case SignalReceived(n) =>
      if x.debugBuild && n == SIGUSR1 then [] else ShutdownCommands(x.manager.Some?)
    case _ => []
  }

  lemma StepTracePrintTab(x: State, r: PrintTabSignal)
    ensures StepPrintTab(x, r).trace == x.trace + CommandsFor(FromPrintTab(r), x)
  {
    match r {
      case PrintButtonClicked =>
      case AdjustBedHeight(_) =>
      case RetractBuildPlatform =>
      case ExtendBuildPlatform =>
      case MoveBuildPlatformUp =>
      case MoveBuildPlatformDown =>
    }
  }

  lemma StepTraceShepherd(x: State, c: MoveCompletion)
    ensures StepShepherd(x, c).trace == x.trace + CommandsFor(FromShepherd(c), x)
  {
    match c {
      case AdjustBedHeightMoveToComplete(_) =>
      case RetractBuildPlatformMoveToComplete(_) =>
      case ExtendBuildPlatformMoveToComplete(_) =>
      case MoveBuildPlatformUpMoveComplete(_) =>
      case MoveBuildPlatformDownMoveComplete(_) =>
    }
  }

  /** Every event appends exactly its commands to the trace. */
  lemma StepTrace(x: State, e: Event)
    ensures Step(x, e).trace == x.trace + CommandsFor(e, x)
  {
    match e {
      case ModelSelected(_, _) =>
      case FromPrepareTab(p) =>
        match p {
          case SliceStarted =>
          case SliceComplete(_) =>
          case RenderStarted =>
          case RenderComplete(_) =>
        }
      case FromCalibrationTab(c) =>
        match c {
          case CalibrationStarted =>
          case CalibrationComplete(_) =>
        }
      case FromPrintTab(r) => StepTracePrintTab(x, r);
      case FromShepherd(c) => StepTraceShepherd(x, c);
      case FromStatusTab(t) =>
        match t {
          case StopButtonClicked =>
          case PrintComplete =>
        }
      case CloseRequested =>
      case SignalReceived(_) =>
      case TabChosen(_) =>
      case JobEdited(_) =>
    }
  }

  /** The error dialog one event shows. */
  function DialogsFor(e: Event): seq<ErrorDialog> {
    match e
    case FromShepherd(c) =>
      if c.success then []
      else [match c
            case AdjustBedHeightMoveToComplete(_) => BedHeightMoveFailed
            case RetractBuildPlatformMoveToComplete(_) => RetractionFailed
            case ExtendBuildPlatformMoveToComplete(_) => ExtensionFailed
            case MoveBuildPlatformUpMoveComplete(_) => MoveUpFailed
            case MoveBuildPlatformDownMoveComplete(_) => MoveDownFailed]
    case _ => []
  }

  function DialogsForAll(es: seq<Event>): seq<ErrorDialog>
    decreases |es|
  {
    if es == [] then [] else DialogsForAll(es[..|es| - 1]) + DialogsFor(es[|es| - 1])
  }

  /** The completion call on the print tab one event makes; moving down reports as moving up. */
  function NoticesFor(e: Event): seq<Notice> {
    match e
    case FromShepherd(AdjustBedHeightMoveToComplete(success)) => [AdjustBedHeightComplete(success)]
    case FromShepherd(RetractBuildPlatformMoveToComplete(success)) => [RetractBuildPlatformComplete(success)]
    case FromShepherd(ExtendBuildPlatformMoveToComplete(success)) => [ExtendBuildPlatformComplete(success)]
    case FromShepherd(MoveBuildPlatformUpMoveComplete(success)) => [MoveBuildPlatformUpComplete(success)]
    case FromShepherd(MoveBuildPlatformDownMoveComplete(success)) => [MoveBuildPlatformUpComplete(success)]
    case _ => []
  }

  function NoticesForAll(es: seq<Event>): seq<Notice>
    decreases |es|
  {
    if es == [] then [] else NoticesForAll(es[..|es| - 1]) + NoticesFor(es[|es| - 1])
  }

  lemma StepFeedbackShepherd(x: State, c: MoveCompletion)
    ensures StepShepherd(x, c).errors == x.errors + DialogsFor(FromShepherd(c))
    ensures StepShepherd(x, c).notices == x.notices + NoticesFor(FromShepherd(c))
  {
    match c {
      case AdjustBedHeightMoveToComplete(_) =>
      case RetractBuildPlatformMoveToComplete(_) =>
      case ExtendBuildPlatformMoveToComplete(_) =>
      case MoveBuildPlatformUpMoveComplete(_) =>
      case MoveBuildPlatformDownMoveComplete(_) =>
    }
  }

  lemma StepFeedbackPrintTab(x: State, r: PrintTabSignal)
    ensures StepPrintTab(x, r).errors == x.errors && StepPrintTab(x, r).notices == x.notices
  {
    match r {
      case PrintButtonClicked =>
      case AdjustBedHeight(_) =>
      case RetractBuildPlatform =>
      case ExtendBuildPlatform =>
      case MoveBuildPlatformUp =>
      case MoveBuildPlatformDown =>
    }
  }

  lemma StepFeedback(x: State, e: Event)
    ensures Step(x, e).errors == x.errors + DialogsFor(e)
    ensures Step(x, e).notices == x.notices + NoticesFor(e)
  {
    match e {
      case ModelSelected(_, _) =>
      case FromPrepareTab(p) =>
        match p {
          case SliceStarted =>
          case SliceComplete(_) =>
          case RenderStarted =>
          case RenderComplete(_) =>
        }
      case FromCalibrationTab(c) =>
        match c {
          case CalibrationStarted =>
          case CalibrationComplete(_) =>
        }
      case FromPrintTab(r) => StepFeedbackPrintTab(x, r);
      case FromShepherd(c) => StepFeedbackShepherd(x, c);
      case FromStatusTab(t) =>
        match t {
          case StopButtonClicked =>
          case PrintComplete =>
        }
      case CloseRequested =>
      case SignalReceived(_) =>
      case TabChosen(_) =>
      case JobEdited(_) =>
    }
  }

  /** Error dialogs appear only for failed hardware moves; every completion reports back. */
  lemma {:induction false} FeedbackIsExact(s: State, es: seq<Event>)
    ensures Run(s, es).errors == s.errors + DialogsForAll(es)
    ensures Run(s, es).notices == s.notices + NoticesForAll(es)
    decreases |es|
  {
    if es != [] {
      var es' := es[..|es| - 1];
      FeedbackIsExact(s, es');
      StepFeedback(Run(s, es'), es[|es| - 1]);
    }
  }

  /** Which print manager is held, and whether this is a debug build, after one event. */
  predicate ManagerFollows(x: State, e: Event) {
    && Step(x, e).debugBuild == x.debugBuild
    && (e != FromPrintTab(PrintButtonClicked) ==>
          Step(x, e).manager == if e == FromStatusTab(PrintComplete) then None else x.manager)
  }

  lemma StepManagerPrintTab(x: State, r: PrintTabSignal)
    ensures ManagerFollows(x, FromPrintTab(r))
  {
    match r {
      case PrintButtonClicked =>
      case AdjustBedHeight(_) =>
      case RetractBuildPlatform =>
      case ExtendBuildPlatform =>
      case MoveBuildPlatformUp =>
      case MoveBuildPlatformDown =>
    }
  }

  lemma StepManagerShepherd(x: State, c: MoveCompletion)
    ensures ManagerFollows(x, FromShepherd(c))
  {
    match c {
      case AdjustBedHeightMoveToComplete(_) =>
      case RetractBuildPlatformMoveToComplete(_) =>
      case ExtendBuildPlatformMoveToComplete(_) =>
      case MoveBuildPlatformUpMoveComplete(_) =>
      case MoveBuildPlatformDownMoveComplete(_) =>
    }
  }

  lemma StepManager(x: State, e: Event)
    ensures ManagerFollows(x, e)
  {
    match e {
      case ModelSelected(_, _) =>
      case FromPrepareTab(p) =>
        match p {
          case SliceStarted =>
          case SliceComplete(_) =>
          case RenderStarted =>
          case RenderComplete(_) =>
        }
      case FromCalibrationTab(c) =>
        match c {
          case CalibrationStarted =>
          case CalibrationComplete(_) =>
        }
      case FromPrintTab(r) => StepManagerPrintTab(x, r);
      case FromShepherd(c) => StepManagerShepherd(x, c);
      case FromStatusTab(t) =>
        match t {
          case StopButtonClicked =>
          case PrintComplete =>
        }
      case CloseRequested =>
      case SignalReceived(_) =>
      case TabChosen(_) =>
      case JobEdited(_) =>
    }
  }

  lemma {:induction false} LogsOnlyGrow(s: State, es: seq<Event>)
    ensures var r := Run(s, es);
      && s.trace <= r.trace && s.errors <= r.errors && s.notices <= r.notices
      && r.debugBuild == s.debugBuild
    decreases |es|
  {
    if es != [] {
      var es' := es[..|es| - 1];
      LogsOnlyGrow(s, es');
      StepTrace(Run(s, es'), es[|es| - 1]);
      StepFeedback(Run(s, es'), es[|es| - 1]);
      StepManager(Run(s, es'), es[|es| - 1]);
    }
  }

  /** The commands in `t` that go to the shepherd, in order. */
  function ShepherdPart(t: seq<Command>): seq<Command>
    decreases |t|
  {
    if t == [] then []
    else ShepherdPart(t[..|t| - 1]) + (if IsShepherdCommand(t[|t| - 1]) then [t[|t| - 1]] else [])
  }

  lemma {:induction false} ShepherdPartAppend(a: seq<Command>, b: seq<Command>)
    ensures ShepherdPart(a + b) == ShepherdPart(a) + ShepherdPart(b)
    decreases |b|
  {
    if b == [] {
      assert a + b == a;
    } else {
      var b' := b[..|b| - 1];
      assert (a + b)[..|a + b| - 1] == a + b';
      ShepherdPartAppend(a, b');
    }
  }

  /** The shepherd commands one event issues, independent of the rest of the state. */
  function ShepherdCommandsFor(e: Event, debugBuild: bool): seq<Command> {
    match e
    case FromPrintTab(AdjustBedHeight(height)) => [MoveTo(height)]
    case FromPrintTab(RetractBuildPlatform) => [MoveTo(RetractedPosition)]
    case FromPrintTab(ExtendBuildPlatform) => [MoveTo(ExtendedPosition)]
    case FromPrintTab(MoveBuildPlatformUp) => [Move(UpStep)]
    case FromPrintTab(MoveBuildPlatformDown) => [Move(DownStep)]
    case FromShepherd(AdjustBedHeightMoveToComplete(success)) => if success then [Send(ZeroAxis)] else []
    case CloseRequested => [Terminate]
    case SignalReceived(n) => if debugBuild && n == SIGUSR1 then [] else [Terminate]
    case _ => []
  }

  function ShepherdCommandsForAll(es: seq<Event>, debugBuild: bool): seq<Command>
    decreases |es|
  {
    if es == [] then []
    else ShepherdCommandsForAll(es[..|es| - 1], debugBuild) + ShepherdCommandsFor(es[|es| - 1], debugBuild)
  }

  /** Of an event's commands, the shepherd's are those of the shepherd table. */
  lemma ShepherdPartSingle(c: Command)
    ensures ShepherdPart([c]) == if IsShepherdCommand(c) then [c] else []
  {
    assert [c][..0] == [];
  }

  /** Of the shutdown commands, only the terminate reaches the shepherd. */
  lemma ShutdownReachesShepherdOnce(hasManager: bool)
    ensures ShepherdPart(ShutdownCommands(hasManager)) == [Terminate]
  {
    ShepherdPartSingle(Terminate);
    if hasManager {
      ShepherdPartSingle(ManagerTerminate);
      ShepherdPartAppend([ManagerTerminate], [Terminate]);
      assert [ManagerTerminate] + [Terminate] == ShutdownCommands(true);
    }
  }

  /** Of an event's commands, the shepherd's are those of the shepherd table. */
  lemma ShepherdShareOfCommands(e: Event, x: State)
    ensures ShepherdPart(CommandsFor(e, x)) == ShepherdCommandsFor(e, x.debugBuild)
  {
    var c := CommandsFor(e, x);
    if e.CloseRequested? || (e.SignalReceived? && !(x.debugBuild && e.signalNumber == SIGUSR1)) {
      ShutdownReachesShepherdOnce(x.manager.Some?);
    } else if |c| == 1 {
      ShepherdPartSingle(c[0]);
      assert c == [c[0]];
    }
  }

  /** The commands the window sends the shepherd are exactly those of the events, in their order. */
  lemma {:induction false} ShepherdReceivesExactly(s: State, es: seq<Event>)
    ensures ShepherdPart(Run(s, es).trace) == ShepherdPart(s.trace) + ShepherdCommandsForAll(es, s.debugBuild)
    decreases |es|
  {
    if es != [] {
      var es' := es[..|es| - 1];
      var x := Run(s, es');
      ShepherdReceivesExactly(s, es');
      LogsOnlyGrow(s, es');
      StepTrace(x, es[|es| - 1]);
      ShepherdPartAppend(x.trace, CommandsFor(es[|es| - 1], x));
      ShepherdShareOfCommands(es[|es| - 1], x);
    }
  }

  /** Every terminate sent to the print manager is followed at once by the shepherd's. */
  ghost predicate ManagerTerminatedFirst(t: seq<Command>) {
    forall i :: 0 <= i < |t| && t[i] == ManagerTerminate ==> i + 1 < |t| && t[i + 1] == Terminate
  }

  lemma ManagerTerminatedFirstAppend(a: seq<Command>, b: seq<Command>)
    requires ManagerTerminatedFirst(a) && ManagerTerminatedFirst(b)
    ensures ManagerTerminatedFirst(a + b)
  {
    var t := a + b;
    forall i | 0 <= i < |t| && t[i] == ManagerTerminate ensures i + 1 < |t| && t[i + 1] == Terminate {
      if i < |a| {
        assert a[i] == ManagerTerminate;
        assert t[i + 1] == a[i + 1];
      } else {
        assert b[i - |a|] == ManagerTerminate;
        assert t[i + 1] == b[i - |a| + 1];
      }
    }
  }

  lemma {:induction false} ShutdownOrder(s: State, es: seq<Event>)
    requires ManagerTerminatedFirst(s.trace)
    ensures ManagerTerminatedFirst(Run(s, es).trace)
    decreases |es|
  {
    if es != [] {
      var es' := es[..|es| - 1];
      var x := Run(s, es');
      ShutdownOrder(s, es');
      StepTrace(x, es[|es| - 1]);
      ManagerTerminatedFirstAppend(x.trace, CommandsFor(es[|es| - 1], x));
    }
  }

  // =====================================================================
  // The print manager's job

  /** Without a new print, the manager's job changes only by being released. */
  lemma {:induction false} ManagerChangesOnlyAtPrintOrCleanUp(s: State, es: seq<Event>)
    requires FromPrintTab(PrintButtonClicked) !in es
    ensures Run(s, es).manager == if FromStatusTab(PrintComplete) in es then None else s.manager
    decreases |es|
  {
    if es != [] {
      var es' := es[..|es| - 1];
      assert es == es' + [es[|es| - 1]];
      ManagerChangesOnlyAtPrintOrCleanUp(s, es');
      StepManager(Run(s, es'), es[|es| - 1]);
    }
  }

  /** Edits to the live job after a print started leave the job handed to the manager as it was. */
  lemma HandoffSurvivesLaterEvents(s: State, es: seq<Event>)
    requires FromPrintTab(PrintButtonClicked) !in es && FromStatusTab(PrintComplete) !in es
    ensures Run(PrintTabPrintButtonClicked(s), es).manager == Some(s.job)
  {
    ManagerChangesOnlyAtPrintOrCleanUp(PrintTabPrintButtonClicked(s), es);
  }

  // =====================================================================
  // Connections on the shepherd's completion signals

  /** Connections of the three absolute-move requests to action_moveToComplete. */
  function PendingMoveTo(s: State): nat {
    s.subscriptions[(ActionMoveToComplete, AdjustBedHeightSlot)]
    + s.subscriptions[(ActionMoveToComplete, RetractSlot)]
    + s.subscriptions[(ActionMoveToComplete, ExtendSlot)]
  }

  predicate IsMoveToRequest(e: Event) {
    e.FromPrintTab? && (e.request.AdjustBedHeight? || e.request == RetractBuildPlatform || e.request == ExtendBuildPlatform)
  }

  /** The print tab's guard: an absolute move is requested only while none is pending. */
  ghost predicate GuardedMoveTo(s: State, es: seq<Event>) {
    forall k :: 0 <= k < |es| && IsMoveToRequest(es[k]) ==> PendingMoveTo(Run(s, es[..k])) == 0
  }

  lemma PendingMoveToPrintTab(x: State, r: PrintTabSignal)
    ensures IsMoveToRequest(FromPrintTab(r)) ==> PendingMoveTo(StepPrintTab(x, r)) == PendingMoveTo(x) + 1
    ensures !IsMoveToRequest(FromPrintTab(r)) ==> PendingMoveTo(StepPrintTab(x, r)) == PendingMoveTo(x)
  {
    match r {
      case PrintButtonClicked =>
      case AdjustBedHeight(_) =>
      case RetractBuildPlatform =>
      case ExtendBuildPlatform =>
      case MoveBuildPlatformUp =>
      case MoveBuildPlatformDown =>
    }
  }

  lemma PendingMoveToShepherd(x: State, c: MoveCompletion)
    ensures PendingMoveTo(StepShepherd(x, c)) <= PendingMoveTo(x)
  {
    match c {
      case AdjustBedHeightMoveToComplete(_) =>
      case RetractBuildPlatformMoveToComplete(_) =>
      case ExtendBuildPlatformMoveToComplete(_) =>
      case MoveBuildPlatformUpMoveComplete(_) =>
      case MoveBuildPlatformDownMoveComplete(_) =>
    }
  }

  lemma StepPendingMoveTo(x: State, e: Event)
    ensures IsMoveToRequest(e) ==> PendingMoveTo(Step(x, e)) == PendingMoveTo(x) + 1
    ensures !IsMoveToRequest(e) ==> PendingMoveTo(Step(x, e)) <= PendingMoveTo(x)
  {
    match e {
      case ModelSelected(_, _) =>
      case FromPrepareTab(p) =>
        match p {
          case SliceStarted =>
          case SliceComplete(_) =>
          case RenderStarted =>
          case RenderComplete(_) =>
        }
      case FromCalibrationTab(c) =>
        match c {
          case CalibrationStarted =>
          case CalibrationComplete(_) =>
        }
      case FromPrintTab(r) => PendingMoveToPrintTab(x, r);
      case FromShepherd(c) => PendingMoveToShepherd(x, c);
      case FromStatusTab(t) =>
        match t {
          case StopButtonClicked =>
          case PrintComplete =>
        }
      case CloseRequested =>
      case SignalReceived(_) =>
      case TabChosen(_) =>
      case JobEdited(_) =>
    }
  }

  /** Under the guard, at most one absolute move is ever awaited. */
  lemma {:induction false} AtMostOneMoveToPending(s: State, es: seq<Event>)
    requires PendingMoveTo(s) <= 1
    requires GuardedMoveTo(s, es)
    ensures PendingMoveTo(Run(s, es)) <= 1
    decreases |es|
  {
    if es != [] {
      var n := |es|;
      var es' := es[..n - 1];
      forall k | 0 <= k < |es'| && IsMoveToRequest(es'[k])
        ensures PendingMoveTo(Run(s, es'[..k])) == 0
      {
        assert es'[k] == es[k] && es'[..k] == es[..k];
      }
      AtMostOneMoveToPending(s, es');
      StepPendingMoveTo(Run(s, es'), es[n - 1]);
      if IsMoveToRequest(es[n - 1]) {
        assert es[..n - 1] == es';
      }
    }
  }

  /** Each absolute-move request with its completion, and the slot connected in between. */
  predicate IsMoveToRoundTrip(request: PrintTabSignal, completion: MoveCompletion, slot: Slot) {
    || (request.AdjustBedHeight? && completion.AdjustBedHeightMoveToComplete? && slot == AdjustBedHeightSlot)
    || (request == RetractBuildPlatform && completion.RetractBuildPlatformMoveToComplete? && slot == RetractSlot)
    || (request == ExtendBuildPlatform && completion.ExtendBuildPlatformMoveToComplete? && slot == ExtendSlot)
  }

  /** Requesting connects exactly one slot; completing disconnects it again. */
  lemma MoveToRoundTripRestores(s: State, request: PrintTabSignal, completion: MoveCompletion, slot: Slot)
    requires IsMoveToRoundTrip(request, completion, slot)
    requires s.subscriptions[(ActionMoveToComplete, slot)] == 0
    ensures Step(s, FromPrintTab(request)).subscriptions == s.subscriptions + multiset{(ActionMoveToComplete, slot)}
    ensures Step(Step(s, FromPrintTab(request)), FromShepherd(completion)).subscriptions == s.subscriptions
  {
    assert (s.subscriptions + multiset{(ActionMoveToComplete, slot)})[(ActionMoveToComplete, slot) := 0]
           == s.subscriptions;
  }

  /** Repeated retractions, each completed, leave the connections as they were. */
  lemma {:induction false} RetractRoundTripsRestore(s: State, success: bool, n: nat)
    requires s.subscriptions[(ActionMoveToComplete, RetractSlot)] == 0
    ensures Run(s, Repeat(RetractTrip(success), n)).subscriptions == s.subscriptions
  {
    if n > 0 {
      var block := RetractTrip(success);
      RetractRoundTripsRestore(s, success, n - 1);
      var x := Run(s, Repeat(block, n - 1));
      RunConcat(s, Repeat(block, n - 1), block);
      RunPair(x, block[0], block[1]);
      MoveToRoundTripRestores(x, RetractBuildPlatform, RetractBuildPlatformMoveToComplete(success), RetractSlot);
    }
  }

  /** Completing a relative move disconnects the wrong signal: its own connection stays. */
  lemma MoveCompletionKeepsConnection(x: State, success: bool)
    ensures Step(x, FromShepherd(MoveBuildPlatformUpMoveComplete(success))).subscriptions[(ActionMoveComplete, MoveUpSlot)]
            == x.subscriptions[(ActionMoveComplete, MoveUpSlot)]
    ensures Step(x, FromShepherd(MoveBuildPlatformDownMoveComplete(success))).subscriptions[(ActionMoveComplete, MoveDownSlot)]
            == x.subscriptions[(ActionMoveComplete, MoveDownSlot)]
  {
  }

  /** One move up with its completion adds one connection of the up slot. */
  lemma UpTripLeaks(x: State, success: bool)
    ensures Run(x, UpTrip(success)).subscriptions[(ActionMoveComplete, MoveUpSlot)]
            == x.subscriptions[(ActionMoveComplete, MoveUpSlot)] + 1
  {
    RunPair(x, UpTrip(success)[0], UpTrip(success)[1]);
    assert UpTrip(success) == [UpTrip(success)[0], UpTrip(success)[1]];
  }

  /** One move down with its completion adds one connection of the down slot. */
  lemma DownTripLeaks(x: State, success: bool)
    ensures Run(x, DownTrip(success)).subscriptions[(ActionMoveComplete, MoveDownSlot)]
            == x.subscriptions[(ActionMoveComplete, MoveDownSlot)] + 1
  {
    RunPair(x, DownTrip(success)[0], DownTrip(success)[1]);
    assert DownTrip(success) == [DownTrip(success)[0], DownTrip(success)[1]];
  }

  /** After n completed moves up, n more connections of the up slot are active. */
  lemma {:induction false} MoveUpRoundTripsAccumulate(s: State, success: bool, n: nat)
    ensures Run(s, Repeat(UpTrip(success), n)).subscriptions[(ActionMoveComplete, MoveUpSlot)]
            == s.subscriptions[(ActionMoveComplete, MoveUpSlot)] + n
  {
    if n > 0 {
      var block := UpTrip(success);
      MoveUpRoundTripsAccumulate(s, success, n - 1);
      RunConcat(s, Repeat(block, n - 1), block);
      UpTripLeaks(Run(s, Repeat(block, n - 1)), success);
    }
  }

  /** After n completed moves down, n more connections of the down slot are active. */
  lemma {:induction false} MoveDownRoundTripsAccumulate(s: State, success: bool, n: nat)
    ensures Run(s, Repeat(DownTrip(success), n)).subscriptions[(ActionMoveComplete, MoveDownSlot)]
            == s.subscriptions[(ActionMoveComplete, MoveDownSlot)] + n
  {
    if n > 0 {
      var block := DownTrip(success);
      MoveDownRoundTripsAccumulate(s, success, n - 1);
      RunConcat(s, Repeat(block, n - 1), block);
      DownTripLeaks(Run(s, Repeat(block, n - 1)), success);
    }
  }

  // =====================================================================
  // From the initial state

  lemma InitialInvariants(debugBuild: bool)
    ensures PendingMoveTo(Initial(debugBuild)) == 0
    ensures ManagerTerminatedFirst(Initial(debugBuild).trace)
    ensures Initial(debugBuild).manager.None?
  {
  }
}
