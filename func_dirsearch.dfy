/**
 * func_dirsearch.go: the dirsearch controller that refuses to start while a
 * job exists and whose progress carries a measured speed. The speed is
 * computed from the clock; here it arrives with the progress callback.
 */
module FuncDirsearch {
  import opened Wrappers
  import Int32
  import Dirsearch
  import opened DirsearchJobs

  /** This file's DirsearchProgress: counters and a speed. */
  datatype DirsearchProgress = DirsearchProgress(current: int, total: int, speed: real)

  const AlreadyRunning: string := "dirsearch is already running"

  class DirsearchController {
    const appReady: bool
    var currentDirsearch: DirsearchControl?
    var events: seq<DirEvent>

    /** The counters of the current job are int32 values. */
    ghost predicate Valid()
      reads this, currentDirsearch
    {
      currentDirsearch != null ==>
        Int32.InRange(currentDirsearch.scanned) && Int32.InRange(currentDirsearch.totalPaths)
    }

    constructor (appReady: bool)
      ensures Valid()
      ensures this.appReady == appReady && currentDirsearch == null && events == []
    {
      this.appReady := appReady;
      currentDirsearch := null;
      events := [];
    }

    /**
     * StartDirsearch: a missing context is refused before anything changes; a
     * running job makes it fail and stay as it is; otherwise a fresh job with
     * zero counters is installed.
     */
    method StartDirsearch() returns (err: Option<string>)
      requires Valid()
      modifies this
      ensures Valid()
      ensures !appReady ==> err == Some(NotInitialized) && currentDirsearch == old(currentDirsearch)
      ensures appReady && old(currentDirsearch) != null ==>
        err == Some(AlreadyRunning) && currentDirsearch == old(currentDirsearch)
      ensures appReady && old(currentDirsearch) == null ==>
        err == None && fresh(currentDirsearch) && currentDirsearch != null
        && !currentDirsearch.cancelled && currentDirsearch.scanned == 0 && currentDirsearch.totalPaths == 0
      ensures events == old(events)
    {
      if !appReady {
        return Some(NotInitialized);
      }
      if currentDirsearch != null {
        return Some(AlreadyRunning);
      }
      currentDirsearch := new DirsearchControl();
      return None;
    }

    /** The path callback: ignored without a job, otherwise one "path-found" event. */
    method OnPathFound(info: Dirsearch.PathInfo)
      modifies this
      ensures currentDirsearch == old(currentDirsearch)
      ensures currentDirsearch == null ==> events == old(events)
      ensures currentDirsearch != null ==> events == old(events) + [PathFound(ToPathResult(info))]
    {
      if currentDirsearch != null {
        events := events + [PathFound(ToPathResult(info))];
      }
    }

    /**
     * The progress callback: ignored without a job, otherwise it stores both
     * counters (as int32) and reports them with the measured speed.
     */
    method OnProgress(current: int, total: int, speed: real)
      requires Valid()
      modifies this, currentDirsearch
      ensures Valid()
      ensures currentDirsearch == old(currentDirsearch)
      ensures currentDirsearch == null ==> events == old(events)
      ensures currentDirsearch != null ==>
        currentDirsearch.scanned == Int32.Wrap(current) && currentDirsearch.totalPaths == Int32.Wrap(total)
        && currentDirsearch.cancelled == old(currentDirsearch.cancelled)
        && events == old(events) + [DirProgress(current, total, Some(speed))]
    {
      if currentDirsearch == null {
        return;
      }
      currentDirsearch.scanned := Int32.Wrap(current);
      currentDirsearch.totalPaths := Int32.Wrap(total);
      events := events + [DirProgress(current, total, Some(speed))];
    }

    /** The end of the goroutine, for any outcome: its status events, then the job is cleared and "idle" sent. */
    method OnScanFinished(outcome: ScanOutcome)
      modifies this
      ensures Valid()
      ensures currentDirsearch == null
      ensures events == old(events) + FinishEvents(outcome) + [DirStatus(Idle)]
    {
      events := events + FinishEvents(outcome);
      currentDirsearch := null;
      events := events + [DirStatus(Idle)];
    }

    /** StopDirsearch: cancels a running job and reports "stopping" at speed 0; fails when idle. */
    method StopDirsearch() returns (err: Option<string>)
      requires Valid()
      modifies this, currentDirsearch
      ensures Valid()
      ensures currentDirsearch == old(currentDirsearch)
      ensures currentDirsearch == null ==> err == Some(NotRunning) && events == old(events)
      ensures currentDirsearch != null ==>
        err == None && currentDirsearch.cancelled
        && currentDirsearch.scanned == old(currentDirsearch.scanned)
        && currentDirsearch.totalPaths == old(currentDirsearch.totalPaths)
        && events == old(events) + [DirStatus("stopping"),
                                    DirProgress(currentDirsearch.scanned, currentDirsearch.totalPaths, Some(0.0))]
    {
      if currentDirsearch == null {
        return Some(NotRunning);
      }
      currentDirsearch.cancelled := true;
      events := events + [DirStatus("stopping"),
                          DirProgress(currentDirsearch.scanned, currentDirsearch.totalPaths, Some(0.0))];
      return None;
    }

    /** GetDirsearchStatus: "running" exactly when a job exists. */
    method GetDirsearchStatus() returns (status: string)
      ensures status == Running <==> currentDirsearch != null
      ensures status == Idle <==> currentDirsearch == null
    {
      status := if currentDirsearch != null then Running else Idle;
    }

    /** GetDirsearchProgress: zeros when idle, otherwise the stored counters; the speed is always 0. */
    method GetDirsearchProgress() returns (p: DirsearchProgress)
      ensures p.speed == 0.0
      ensures currentDirsearch == null ==> p.current == 0 && p.total == 0
      ensures currentDirsearch != null ==>
        p.current == currentDirsearch.scanned && p.total == currentDirsearch.totalPaths
    {
      if currentDirsearch == null {
        return DirsearchProgress(0, 0, 0.0);
      }
      return DirsearchProgress(currentDirsearch.scanned, currentDirsearch.totalPaths, 0.0);
    }
  }

  /**
   * Stopping a running job cancels it, yet the job stays current (status
   * still "running") until its goroutine ends; the goroutine then reports
   * "cancelled" and "idle", and a stop after that fails.
   */
  method StopThenFinish(current: int, total: int)
    returns (stopErr: Option<string>, job: DirsearchControl, statusWhileStopping: string,
             tail: seq<DirEvent>, statusAfter: string, secondStop: Option<string>)
    ensures stopErr == None && job.cancelled
    ensures job.scanned == Int32.Wrap(current) && job.totalPaths == Int32.Wrap(total)
    ensures statusWhileStopping == Running
    ensures tail == [DirStatus("cancelled"), DirStatus(Idle)]
    ensures statusAfter == Idle && secondStop == Some(NotRunning)
  {
    var c := new DirsearchController(true);
    var started := c.StartDirsearch();
    job := c.currentDirsearch;
    c.OnProgress(current, total, 1.5);
    stopErr := c.StopDirsearch();
    statusWhileStopping := c.GetDirsearchStatus();
    var before := c.events;
    c.OnScanFinished(Canceled);
    tail := c.events[|before|..];
    statusAfter := c.GetDirsearchStatus();
    secondStop := c.StopDirsearch();
  }
}
