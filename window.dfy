/**
  The main window as an object whose slots update its fields in place.

  Each slot's effect on the window is given by the transition function of the
  same name in `WindowModel`, through `View()`; what a value cannot say
  (which job object is live, which one the print manager holds, which job
  each tab is bound to) is stated about the references directly.
 */
module MainWindow {
  import opened Jobs
  import opened WindowModel

  /** The print manager's signals that the window forwards to the status tab. */
  datatype ManagerSignal = PrintStarting | StartingLayer | LampStatusChange | ManagerPrintComplete

  const StatusTabForwarding: set<ManagerSignal> :=
    {PrintStarting, StartingLayer, LampStatusChange, ManagerPrintComplete}

  /** The tabs bound to the live job through `printJobChanged` (the calibration tab is not). */
  const JobTabs: set<Tab> := {Select, Prepare, Print, Status}

  /** Every job-bound tab given `job`, as `emit printJobChanged( job )` does. */
  function BindAll(job: PrintJob): (m: map<Tab, PrintJob>)
    ensures m.Keys == JobTabs
    ensures forall t :: t in m ==> m[t] == job
  {
    map[Select := job, Prepare := job, Print := job, Status := job]
  }

  /**
    The print manager is foreign code; the model keeps only the job it was
    told to print and which of its signals were connected to the status tab.
    Its construction and its `print` call are joined: the job is fixed when
    the manager is created.
   */
  class PrintManager {
    /** The job it was told to print. */
    const job: PrintJob
    var forwarded: set<ManagerSignal>

    constructor (job: PrintJob)
      ensures this.job == job && forwarded == {}
    {
      this.job := job;
      forwarded := {};
    }
  }

  /** Creates the print manager, forwards its signals to the status tab and starts it on `job`. */
  method NewPrintManager(job: PrintJob) returns (manager: PrintManager)
    ensures fresh(manager)
    ensures manager.job == job && manager.forwarded == StatusTabForwarding
  {
    manager := new PrintManager(job);
    manager.forwarded := StatusTabForwarding;
  }

  class Window {
    var tab: Tab
    var sliceButtonEnabled: bool
    var printButtonEnabled: bool
    var stopButtonEnabled: bool
    var printJob: PrintJob
    /** The job each tab was last given through `setPrintJob`. */
    var tabJobs: map<Tab, PrintJob>
    var printManager: PrintManager?
    var subscriptions: multiset<Subscription>
    var trace: seq<Command>
    var errors: seq<ErrorDialog>
    var notices: seq<Notice>
    var closed: bool
    /** Whether the program was built with `_DEBUG`. */
    const debugBuild: bool

    /**
      Every tab is bound to the live job, and a print manager, if there is
      one, holds a job that is not the live one.
     */
    ghost predicate Valid()
      reads this
    {
      && tabJobs == BindAll(printJob)
      && (printManager != null ==> printManager.job != printJob)
    }

    function ManagedJob(): set<PrintJob>
      reads this
    {
      if printManager != null then {printManager.job} else {}
    }

    /** The window as a value of `WindowModel.State`. */
    function View(): State
      reads this, printJob, ManagedJob()
    {
      State(tab, sliceButtonEnabled, printButtonEnabled, stopButtonEnabled,
            printJob.Fields(),
            if printManager != null then Some(printManager.job.Fields()) else None,
            subscriptions, trace, errors, notices, closed, debugBuild)
    }

    constructor (debugBuild: bool)
      ensures Valid() && fresh(printJob) && printManager == null
      ensures View() == Initial(debugBuild)
    {
      var job := new PrintJob();
      printJob := job;
      this.debugBuild := debugBuild;
      subscriptions := StartupSubscriptions;
      trace := [Start];
      tabJobs := BindAll(job);
      tab := Select;
      sliceButtonEnabled, printButtonEnabled, stopButtonEnabled := false, false, false;
      printManager := null;
      errors, notices := [], [];
      closed := false;
    }

    // -------------------------------------------------------------------
    // Tab events

    method SelectTabModelSelected(success: bool, fileName: string)
      requires Valid()
      modifies this, printJob
      ensures Valid()
      ensures printJob == old(printJob) && printManager == old(printManager)
      ensures View() == WindowModel.SelectTabModelSelected(old(View()), success, fileName)
    {
      if success {
        sliceButtonEnabled := true;
        printJob.modelFileName := fileName;
        if tab == Select {
          tab := Prepare;
        }
      } else {
        sliceButtonEnabled := false;
      }
    }

    method PrepareTabSliceStarted()
      requires Valid()
      modifies this
      ensures Valid()
      ensures printJob == old(printJob) && printManager == old(printManager)
      ensures View() == WindowModel.PrepareTabSliceStarted(old(View()))
    {
      sliceButtonEnabled := false;
      printButtonEnabled := false;
    }

    method PrepareTabSliceComplete(success: bool)
      requires Valid()
      ensures View() == WindowModel.PrepareTabSliceComplete(old(View()), success)
    {
      if !success {
        return;
      }
    }

    method PrepareTabRenderStarted()
      requires Valid()
      ensures View() == WindowModel.PrepareTabRenderStarted(old(View()))
    {
    }

    method PrepareTabRenderComplete(success: bool)
      requires Valid()
      modifies this
      ensures Valid()
      ensures printJob == old(printJob) && printManager == old(printManager)
      ensures View() == WindowModel.PrepareTabRenderComplete(old(View()), success)
    {
      if !success {
        return;
      }
      sliceButtonEnabled := true;
      printButtonEnabled := true;
      if tab == Prepare {
        tab := Print;
      }
    }

    /** Not connected to the calibration tab by the constructor. */
    method CalibrationTabCalibrationStarted()
      requires Valid()
      modifies this
      ensures Valid()
      ensures printJob == old(printJob) && printManager == old(printManager)
      ensures View() == WindowModel.CalibrationTabCalibrationStarted(old(View()))
    {
      printButtonEnabled := false;
    }

    /** Not connected to the calibration tab by the constructor. */
    method CalibrationTabCalibrationComplete(success: bool)
      requires Valid()
      modifies this
      ensures Valid()
      ensures printJob == old(printJob) && printManager == old(printManager)
      ensures View() == WindowModel.CalibrationTabCalibrationComplete(old(View()), success)
    {
      printButtonEnabled := success;
    }

    /**
      Hands the live job object to a new print manager and makes a field-equal
      copy the live job, bound to every tab.
     */
    method PrintTabPrintButtonClicked()
      requires Valid()
      modifies this
      ensures Valid()
      ensures fresh(printJob) && printJob != old(printJob)
      ensures printManager != null && fresh(printManager)
      ensures printManager.job == old(printJob)
      ensures printManager.forwarded == StatusTabForwarding
      ensures View() == WindowModel.PrintTabPrintButtonClicked(old(View()))
    {
      // The window's own fields are written together once the new objects
      // exist; nothing called in between reads them.
      var newJob := printJob.Copy();
      var manager := NewPrintManager(printJob);
      tab, printManager, trace := Status, manager, trace + [ManagerPrint(printJob.Fields())];
      printJob, tabJobs := newJob, BindAll(newJob);
      printButtonEnabled, stopButtonEnabled := false, true;
    }

    /**
      A tab writing to the job object it was given, which is the live job:
      the job held by the print manager is a different object and keeps its
      fields.
     */
    method EditLiveJob(edited: JobFields)
      requires Valid()
      modifies printJob
      ensures Valid()
      ensures View() == old(View()).(job := edited)
    {
      printJob.modelFileName, printJob.slicedSvgFileName, printJob.pngFilesPath :=
        edited.modelFileName, edited.slicedSvgFileName, edited.pngFilesPath;
      printJob.layerCount, printJob.layerThickness, printJob.exposureTime, printJob.powerLevel :=
        edited.layerCount, edited.layerThickness, edited.exposureTime, edited.powerLevel;
    }

    // -------------------------------------------------------------------
    // Hardware requests and their completions

    method PrintTabAdjustBedHeight(newHeight: real)
      requires Valid()
      modifies this
      ensures Valid()
      ensures printJob == old(printJob) && printManager == old(printManager)
      ensures View() == WindowModel.PrintTabAdjustBedHeight(old(View()), newHeight)
    {
      subscriptions := Connect(subscriptions, ActionMoveToComplete, AdjustBedHeightSlot);
      trace := trace + [MoveTo(newHeight)];
    }

    method ShepherdAdjustBedHeightMoveToComplete(success: bool)
      requires Valid()
      modifies this
      ensures Valid()
      ensures printJob == old(printJob) && printManager == old(printManager)
      ensures View() == WindowModel.ShepherdAdjustBedHeightMoveToComplete(old(View()), success)
    {
      subscriptions := Disconnect(subscriptions, ActionMoveToComplete, AdjustBedHeightSlot);
      if !success {
        errors := errors + [BedHeightMoveFailed];
      } else {
        trace := trace + [Send(ZeroAxis)];
      }
      notices := notices + [AdjustBedHeightComplete(success)];
    }

    method PrintTabRetractBuildPlatform()
      requires Valid()
      modifies this
      ensures Valid()
      ensures printJob == old(printJob) && printManager == old(printManager)
      ensures View() == WindowModel.PrintTabRetractBuildPlatform(old(View()))
    {
      subscriptions := Connect(subscriptions, ActionMoveToComplete, RetractSlot);
      trace := trace + [MoveTo(RetractedPosition)];
    }

    method ShepherdRetractBuildPlatformMoveToComplete(success: bool)
      requires Valid()
      modifies this
      ensures Valid()
      ensures printJob == old(printJob) && printManager == old(printManager)
      ensures View() == WindowModel.ShepherdRetractBuildPlatformMoveToComplete(old(View()), success)
    {
      subscriptions := Disconnect(subscriptions, ActionMoveToComplete, RetractSlot);
      if !success {
        errors := errors + [RetractionFailed];
      }
      notices := notices + [RetractBuildPlatformComplete(success)];
    }

    method PrintTabExtendBuildPlatform()
      requires Valid()
      modifies this
      ensures Valid()
      ensures printJob == old(printJob) && printManager == old(printManager)
      ensures View() == WindowModel.PrintTabExtendBuildPlatform(old(View()))
    {
      subscriptions := Connect(subscriptions, ActionMoveToComplete, ExtendSlot);
      trace := trace + [MoveTo(ExtendedPosition)];
    }

    method ShepherdExtendBuildPlatformMoveToComplete(success: bool)
      requires Valid()
      modifies this
      ensures Valid()
      ensures printJob == old(printJob) && printManager == old(printManager)
      ensures View() == WindowModel.ShepherdExtendBuildPlatformMoveToComplete(old(View()), success)
    {
      subscriptions := Disconnect(subscriptions, ActionMoveToComplete, ExtendSlot);
      if !success {
        errors := errors + [ExtensionFailed];
      }
      notices := notices + [ExtendBuildPlatformComplete(success)];
    }

    method PrintTabMoveBuildPlatformUp()
      requires Valid()
      modifies this
      ensures Valid()
      ensures printJob == old(printJob) && printManager == old(printManager)
      ensures View() == WindowModel.PrintTabMoveBuildPlatformUp(old(View()))
    {
      subscriptions := Connect(subscriptions, ActionMoveComplete, MoveUpSlot);
      trace := trace + [Move(UpStep)];
    }

    /** Disconnects from action_moveToComplete, so the action_moveComplete connection stays. */
    method ShepherdMoveBuildPlatformUpMoveComplete(success: bool)
      requires Valid()
      modifies this
      ensures Valid()
      ensures printJob == old(printJob) && printManager == old(printManager)
      ensures View() == WindowModel.ShepherdMoveBuildPlatformUpMoveComplete(old(View()), success)
    {
      subscriptions := Disconnect(subscriptions, ActionMoveToComplete, MoveUpSlot);
      if !success {
        errors := errors + [MoveUpFailed];
      }
      notices := notices + [MoveBuildPlatformUpComplete(success)];
    }

    method PrintTabMoveBuildPlatformDown()
      requires Valid()
      modifies this
      ensures Valid()
      ensures printJob == old(printJob) && printManager == old(printManager)
      ensures View() == WindowModel.PrintTabMoveBuildPlatformDown(old(View()))
    {
      subscriptions := Connect(subscriptions, ActionMoveComplete, MoveDownSlot);
      trace := trace + [Move(DownStep)];
    }

    /** The same wrong disconnect as moving up; reports through the "up" completion. */
    method ShepherdMoveBuildPlatformDownMoveComplete(success: bool)
      requires Valid()
      modifies this
      ensures Valid()
      ensures printJob == old(printJob) && printManager == old(printManager)
      ensures View() == WindowModel.ShepherdMoveBuildPlatformDownMoveComplete(old(View()), success)
    {
      subscriptions := Disconnect(subscriptions, ActionMoveToComplete, MoveDownSlot);
      if !success {
        errors := errors + [MoveDownFailed];
      }
      notices := notices + [MoveBuildPlatformUpComplete(success)];
    }

    // -------------------------------------------------------------------
    // Stopping, cleaning up and shutting down

    method StatusTabStopButtonClicked()
      requires Valid()
      modifies this
      ensures Valid()
      ensures printJob == old(printJob) && printManager == old(printManager)
      ensures View() == WindowModel.StatusTabStopButtonClicked(old(View()))
    {
      stopButtonEnabled := false;
      if printManager != null {
        trace := trace + [ManagerAbort];
      }
    }

    /** Releases the print manager; its deferred deletion is not modelled. */
    method StatusTabCleanUpAfterPrint()
      requires Valid()
      modifies this
      ensures Valid()
      ensures printJob == old(printJob) && printManager == null
      ensures View() == WindowModel.StatusTabCleanUpAfterPrint(old(View()))
    {
      if printManager != null {
        printManager := null;
      }
      stopButtonEnabled := false;
    }

    method CloseEvent()
      requires Valid()
      modifies this
      ensures Valid()
      ensures printJob == old(printJob) && printManager == old(printManager)
      ensures View() == WindowModel.CloseEvent(old(View()))
    {
      if printManager != null {
        trace := trace + [ManagerTerminate];
      }
      trace := trace + [Terminate];
      closed := true;
    }

    /** Closes the window, unless a debug build receives SIGUSR1 (an object dump, not modelled). */
    method SignalHandlerSignalReceived(signalNumber: int)
      requires Valid()
      modifies this
      ensures Valid()
      ensures printJob == old(printJob) && printManager == old(printManager)
      ensures View() == WindowModel.SignalHandlerSignalReceived(old(View()), signalNumber)
    {
      if debugBuild && signalNumber == SIGUSR1 {
        return;
      }
      CloseEvent();
    }
  }

  /**
    A print started with 42 layers and 8 s exposure: the print manager keeps
    exactly those values while a tab edits the new live job.
   */
  method PrintSnapshotScenario()
  {
    var w := new Window(false);
    w.EditLiveJob(EmptyJob.(layerCount := 42, exposureTime := 8.0));
    w.PrintTabPrintButtonClicked();
    var manager := w.printManager;
    w.EditLiveJob(w.printJob.Fields().(layerCount := 10));
    assert manager.job.layerCount == 42 && manager.job.exposureTime == 8.0;
    assert w.printJob.layerCount == 10 && w.printJob.exposureTime == 8.0;
  }

  /** Stopping a print aborts it once; cleaning up releases the manager. */
  method StopScenario()
  {
    var w := new Window(false);
    w.PrintTabPrintButtonClicked();
    w.StatusTabStopButtonClicked();
    w.StatusTabCleanUpAfterPrint();
    assert w.printManager == null && !w.stopButtonEnabled;
    assert w.trace == [Start, ManagerPrint(EmptyJob), ManagerAbort];
  }
}
