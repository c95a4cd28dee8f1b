/**
 * apps/dirsearch/app.go: the dirsearch App of the dirsearch package. Its
 * StartDirsearch never refuses a running job: it forgets it without
 * cancelling it and installs a new one. The speed of a progress report is
 * computed from the clock; here it arrives with the progress callback.
 */
module DirsearchApp {
  import opened Wrappers
  import Int32
  import Dirsearch
  import opened DirsearchJobs

  class App {
    /** Whether Startup has given the App its context. */
    var hasContext: bool
    var currentDirsearch: DirsearchControl?
    var events: seq<DirEvent>

    /** The counters of the current job are int32 values. */
    ghost predicate Valid()
      reads this, currentDirsearch
    {
      currentDirsearch != null ==>
        Int32.InRange(currentDirsearch.scanned) && Int32.InRange(currentDirsearch.totalPaths)
    }

    /** NewApp: no context yet and no job. */
    constructor ()
      ensures Valid()
      ensures !hasContext && currentDirsearch == null && events == []
    {
      hasContext := false;
      currentDirsearch := null;
      events := [];
    }

    /** Startup stores the context and changes nothing else. */
    method Startup()
      modifies this
      ensures hasContext
      ensures currentDirsearch == old(currentDirsearch) && events == old(events)
    {
      hasContext := true;
    }

    /**
     * StartDirsearch: without a context it fails and changes nothing;
     * otherwise it always succeeds and the job it installs is fresh with zero
     * counters; a previous job is dropped and NOT cancelled.
     */
    method StartDirsearch() returns (err: Option<string>)
      requires Valid()
      modifies this
      ensures Valid()
      ensures hasContext == old(hasContext) && events == old(events)
      ensures !hasContext ==> err == Some(NotInitialized) && currentDirsearch == old(currentDirsearch)
      ensures hasContext ==>
        err == None && fresh(currentDirsearch) && currentDirsearch != null
        && !currentDirsearch.cancelled && currentDirsearch.scanned == 0 && currentDirsearch.totalPaths == 0
      ensures old(currentDirsearch) != null ==> old(currentDirsearch).cancelled == old(currentDirsearch.cancelled)
    {
      if !hasContext {
        return Some(NotInitialized);
      }
      if currentDirsearch != null {
        currentDirsearch := null;
      }
      currentDirsearch := new DirsearchControl();
      return None;
    }

    /** The path callback: ignored without a job, otherwise one "path-found" event. */
    method OnPathFound(info: Dirsearch.PathInfo)
      modifies this
      ensures hasContext == old(hasContext) && currentDirsearch == old(currentDirsearch)
      ensures currentDirsearch == null ==> events == old(events)
      ensures currentDirsearch != null ==> events == old(events) + [PathFound(ToPathResult(info))]
    {
      if currentDirsearch != null {
        events := events + [PathFound(ToPathResult(info))];
      }
    }

    /**
     * The progress callback of any run: ignored without a job, otherwise it
     * stores both counters (as int32) in whichever job is current and reports
     * them with the measured speed.
     */
    method OnProgress(current: int, total: int, speed: real)
      requires Valid()
      modifies this, currentDirsearch
      ensures Valid()
      ensures hasContext == old(hasContext) && currentDirsearch == old(currentDirsearch)
      ensures currentDirsearch == null ==> events == old(events)
      ensures currentDirsearch != null ==>
        currentDirsearch.scanned == Int32.Wrap(current) && currentDirsearch.totalPaths == Int32.Wrap(total)
        && currentDirsearch.cancelled == old(currentDirsearch.cancelled)
        && events == old(events) + [DirProgress(current, total, Some(speed))]
    {
      if currentDirsearch == null {
        return;
      }
      currentDirsearch.scanned := Int32.Wrap(current);
      currentDirsearch.totalPaths := Int32.Wrap(total);
      events := events + [DirProgress(current, total, Some(speed))];
    }

    /**
     * The end of any run's goroutine: its status events, then the deferred
     * reset, which clears the current job even when a later start installed it.
     */
    method OnScanFinished(outcome: ScanOutcome)
      modifies this
      ensures Valid()
      ensures hasContext == old(hasContext) && currentDirsearch == null
      ensures events == old(events) + FinishEvents(outcome) + [DirStatus(Idle)]
    {
      events := events + FinishEvents(outcome);
      currentDirsearch := null;
      events := events + [DirStatus(Idle)];
    }

    /** StopDirsearch: cancels a running job and reports "stopping" at speed 0; fails when idle. */
    method StopDirsearch() returns (err: Option<string>)
      requires Valid()
      modifies this, currentDirsearch
      ensures Valid()
      ensures hasContext == old(hasContext) && currentDirsearch == old(currentDirsearch)
      ensures currentDirsearch == null ==> err == Some(NotRunning) && events == old(events)
      ensures currentDirsearch != null ==>
        err == None && currentDirsearch.cancelled
        && currentDirsearch.scanned == old(currentDirsearch.scanned)
        && currentDirsearch.totalPaths == old(currentDirsearch.totalPaths)
        && events == old(events) + [DirStatus("stopping"),
                                    DirProgress(currentDirsearch.scanned, currentDirsearch.totalPaths, Some(0.0))]
    {
      if currentDirsearch == null {
        return Some(NotRunning);
      }
      currentDirsearch.cancelled := true;
      events := events + [DirStatus("stopping"),
                          DirProgress(currentDirsearch.scanned, currentDirsearch.totalPaths, Some(0.0))];
      return None;
    }
  }

  /**
   * Two starts in a row: the first job is orphaned uncancelled; when the
   * first run's goroutine ends (here with a ScanDir error, such as an
   * unreadable dictionary) it clears the second job, and stopping then fails
   * although the second scan was never stopped.
   */
  method SupersededRun(message: string) returns (first: DirsearchControl, second: DirsearchControl, stop: Option<string>)
    ensures first != second
    ensures !first.cancelled && !second.cancelled
    ensures stop == Some(NotRunning)
  {
    var app := new App();
    var before := app.StartDirsearch();
    app.Startup();
    var e1 := app.StartDirsearch();
    first := app.currentDirsearch;
    var e2 := app.StartDirsearch();
    second := app.currentDirsearch;
    app.OnScanFinished(Failed(message));
    stop := app.StopDirsearch();
  }
}
