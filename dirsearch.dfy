/**
 * apps/dirsearch/dirsearch.go: the wordlist enumerator and the sequential logic
 * of ScanDir's pipeline (producer, worker counter, progress sampler and result
 * delivery). Channel hand-offs, goroutines and the 100 ms ticker are abstracted:
 * what a goroutine observes is given as an input sequence.
 */
module Dirsearch {
  import opened Wrappers
  import opened Text
  import Int32

  // ---------------------------------------------------------------- wordlist

  /** The filter ScanDir applies to a line after trimming it. */
  predicate Keep(line: string) {
    line != "" && !HasPrefix(line, "#")
  }

  /** What every wordlist entry looks like. */
  predicate WellFormedPath(p: string) {
    p != [] && !IsSpace(p[0]) && !IsSpace(p[|p| - 1]) && p[0] != '#'
  }

  /** Reference definition: the trimmed lines that are kept, in line order. */
  function Kept(lines: seq<string>): seq<string>
  {
    if lines == [] then []
    else
      var t := TrimSpace(lines[|lines| - 1]);
      Kept(lines[..|lines| - 1]) + (if Keep(t) then [t] else [])
  }

  /** The wordlist of a file: split on "\n", trim, drop blank and comment lines. */
  function Wordlist(content: string): seq<string> {
    Kept(Split(content, '\n'))
  }

  /** Every kept entry is non-empty, has no surrounding white space and does not start with '#'. */
  lemma {:induction false} KeptWellFormed(lines: seq<string>)
    ensures forall i :: 0 <= i < |Kept(lines)| ==> WellFormedPath(Kept(lines)[i])
  {
    if lines != [] {
      KeptWellFormed(lines[..|lines| - 1]);
    }
  }

  /** A line whose trimmed form passes the filter contributes that form to Kept. */
  lemma {:induction false} KeptIncludes(lines: seq<string>, i: nat)
    requires i < |lines| && Keep(TrimSpace(lines[i]))
    ensures TrimSpace(lines[i]) in Kept(lines)
  {
    var init := lines[..|lines| - 1];
    var t := TrimSpace(lines[|lines| - 1]);
    assert Kept(lines) == Kept(init) + (if Keep(t) then [t] else []);
    if i < |init| {
      assert init[i] == lines[i];
      KeptIncludes(init, i);
    } else {
      assert i == |lines| - 1;
    }
  }

  /** Every entry of Kept is the trimmed form of a line that passes the filter. */
  lemma {:induction false} KeptSource(lines: seq<string>, p: string) returns (i: nat)
    requires p in Kept(lines)
    ensures i < |lines| && TrimSpace(lines[i]) == p && Keep(p)
  {
    var init := lines[..|lines| - 1];
    if p in Kept(init) {
      i := KeptSource(init, p);
      assert init[i] == lines[i];
    } else {
      i := |lines| - 1;
    }
  }

  /** Kept never yields more entries than there are lines, and drops a line iff its trimmed form is rejected. */
  lemma {:induction false} KeptLength(lines: seq<string>)
    ensures |Kept(lines)| <= |lines|
    ensures |Kept(lines)| == |lines| <==> forall i :: 0 <= i < |lines| ==> Keep(TrimSpace(lines[i]))
  {
    if lines != [] {
      var init := lines[..|lines| - 1];
      KeptLength(init);
      assert forall i :: 0 <= i < |init| ==> init[i] == lines[i];
    }
  }

  /** Leading white space is all TrimLeft removes. */
  lemma {:induction false} TrimLeftSpaces(ws: string, t: string)
    requires forall i :: 0 <= i < |ws| ==> IsSpace(ws[i])
    requires t == [] || !IsSpace(t[0])
    ensures TrimLeft(ws + t) == t
  {
    if ws != [] {
      assert (ws + t)[1..] == ws[1..] + t;
      TrimLeftSpaces(ws[1..], t);
    } else {
      assert ws + t == t;
    }
  }

  /**
   * Trimming comes before the '#' test, so a comment line is dropped however far
   * it is indented.
   */
  lemma IndentedCommentDropped(ws: string, rest: string)
    requires forall i :: 0 <= i < |ws| ==> IsSpace(ws[i])
    ensures !Keep(TrimSpace(ws + "#" + rest))
    ensures Kept([ws + "#" + rest]) == []
  {
    var line := ws + "#" + rest;
    assert line == ws + ("#" + rest);
    TrimLeftSpaces(ws, "#" + rest);
    var r := TrimSpace(line);
    assert r == TrimRight("#" + rest);
    assert HasPrefix(r, "#");
    assert [line][..0] == [];
  }

  /** The parsing loop of ScanDir. */
  method ParseWordlist(content: string) returns (paths: seq<string>)
    ensures paths == Wordlist(content)
    ensures forall i :: 0 <= i < |paths| ==> WellFormedPath(paths[i])
  {
    var lines := Split(content, '\n');
    paths := [];
    var i := 0;
    while i < |lines|
      invariant 0 <= i <= |lines|
      invariant paths == Kept(lines[..i])
    {
      var line := TrimSpace(lines[i]);
      if line != "" && !HasPrefix(line, "#") {
        paths := paths + [line];
      }
      assert lines[..i + 1][..i] == lines[..i];
      i := i + 1;
    }
    assert lines[..i] == lines;
    KeptWellFormed(lines);
  }

  /** The callback ScanDir reports progress through: progressCallback(current, total). */
  datatype ProgressReport = ProgressReport(current: int, total: int)

  datatype ScanDirError =
    | ReadFailed               // os.ReadFile failed
    | EmptyDictionary          // no line survived the filter
    | PluginCreationFailed     // gobusterdir.NewGobusterDir failed

  /**
   * ScanDir up to the start of the workers: read the file (its outcome is given:
   * None is a read error), parse it, fail fast when it is empty, announce the
   * total, then create the plugins (whether that succeeds is given).
   */
  method Setup(file: Option<string>, pluginsCreated: bool)
    returns (err: Option<ScanDirError>, paths: seq<string>, reports: seq<ProgressReport>)
    ensures file.None? ==> err == Some(ReadFailed) && reports == []
    ensures file.Some? ==> paths == Wordlist(file.value)
    ensures file.Some? && paths == [] ==> err == Some(EmptyDictionary) && reports == []
    ensures file.Some? && paths != [] ==>
      && reports == [ProgressReport(0, |paths|)]
      && err == (if pluginsCreated then None else Some(PluginCreationFailed))
  {
    reports := [];
    paths := [];
    if file.None? {
      return Some(ReadFailed), paths, reports;
    }
    paths := ParseWordlist(file.value);
    if |paths| == 0 {
      return Some(EmptyDictionary), paths, reports;
    }
    reports := [ProgressReport(0, |paths|)];
    err := if pluginsCreated then None else Some(PluginCreationFailed);
  }

  // ---------------------------------------------------------------- producer

  const BatchSize: nat := 100

  /**
   * How many paths the producer hands to the workers, given the first loop index
   * at which it reads isStopped as true (stopAt) and the index of the first send
   * at which ctx.Done wins the select (cancelAt); a value >= n means "never".
   * A stop drops the batch being filled; a cancel ends the sends at once.
   */
  function ProducedCount(n: nat, stopAt: nat, cancelAt: nat): nat {
    var limit := if stopAt < n then stopAt - stopAt % BatchSize else n;
    if cancelAt < limit then cancelAt else limit
  }

  /** Without interruption every path is sent; with one, strictly fewer. */
  lemma ProducedCountBounds(n: nat, stopAt: nat, cancelAt: nat)
    ensures ProducedCount(n, stopAt, cancelAt) <= n
    ensures ProducedCount(n, stopAt, cancelAt) == n <==> (stopAt >= n && cancelAt >= n)
    ensures cancelAt >= n ==> ProducedCount(n, stopAt, cancelAt) % BatchSize == 0 || stopAt >= n
  {
  }

  /**
   * One of the producer's send loops: the paths of `batch` go out in order
   * until ctx.Done wins the select, which happens at overall send number cancelAt.
   */
  method SendBatch(sent: seq<string>, batch: seq<string>, cancelAt: nat) returns (out: seq<string>, cancelled: bool)
    requires |sent| <= cancelAt
    ensures cancelled <==> cancelAt < |sent| + |batch|
    ensures !cancelled ==> out == sent + batch
    ensures cancelled ==> out == sent + batch[..cancelAt - |sent|]
  {
    out := sent;
    var j := 0;
    while j < |batch|
      invariant 0 <= j <= |batch|
      invariant out == sent + batch[..j] && |out| <= cancelAt
    {
      if |out| >= cancelAt {
        return out, true;
      }
      out := out + [batch[j]];
      j := j + 1;
      assert batch[..j] == batch[..j - 1] + [batch[j - 1]];
    }
    assert batch[..j] == batch;
    return out, false;
  }

  /** The position of the next path in its batch. */
  lemma NextIndexInBatch(i: nat)
    ensures (i + 1) % BatchSize == if i % BatchSize == BatchSize - 1 then 0 else i % BatchSize + 1
  {
  }

  /** Rounding x down to a whole number of batches keeps every whole number of batches below x. */
  lemma RoundDownAtLeast(m: nat, x: nat)
    requires m % BatchSize == 0 && m <= x
    ensures m <= x - x % BatchSize
  {
    assert m == BatchSize * (m / BatchSize);
    assert x == BatchSize * (x / BatchSize) + x % BatchSize;
    assert m / BatchSize <= x / BatchSize;
  }

  /** The path-sending goroutine of ScanDir: batches of 100, then the remainder. */
  method Produce(paths: seq<string>, stopAt: nat, cancelAt: nat) returns (sent: seq<string>)
    ensures sent == paths[..ProducedCount(|paths|, stopAt, cancelAt)]
  {
    sent := [];
    var batch: seq<string> := [];
    var i := 0;
    var cancelled := false;
    while i < |paths|
      invariant 0 <= i <= |paths| && i <= stopAt
      invariant |batch| == i % BatchSize
      invariant |sent| == i - |batch| && |sent| <= cancelAt
      invariant sent == paths[..|sent|] && batch == paths[|sent|..i]
    {
      if i >= stopAt {
        return;
      }
      NextIndexInBatch(i);
      batch := batch + [paths[i]];
      if |batch| >= BatchSize {
        assert sent + batch == paths[..i + 1];
        sent, cancelled := SendBatch(sent, batch, cancelAt);
        if cancelled {
          RoundDownAtLeast(i + 1, stopAt);
          return;
        }
        batch := [];
      }
      i := i + 1;
    }
    assert sent + batch == paths;
    sent, cancelled := SendBatch(sent, batch, cancelAt);
  }

  /** Produce with neither a stop nor a cancel sends the whole wordlist in order. */
  lemma ProduceUninterrupted(paths: seq<string>, stopAt: nat, cancelAt: nat)
    requires stopAt >= |paths| && cancelAt >= |paths|
    ensures paths[..ProducedCount(|paths|, stopAt, cancelAt)] == paths
  {
  }

  // ---------------------------------------------------------------- workers

  /** What plugin.ProcessWord returned. */
  datatype WordOutcome = WordOk | WordErr(msg: string)

  /**
   * What one worker does with the next path it receives: stop at its own
   * isStopped / ctx.Done check, find ctx cancelled inside processPath, or run the
   * plugin on it.
   */
  datatype WorkerStep = Halt | CancelledInProcess | Ran(outcome: WordOutcome)

  const CanceledMessage: string := "context canceled"

  /** The number of paths a worker hands to processPath: those before its first Halt. */
  function Processed(steps: seq<WorkerStep>): nat {
    if steps == [] || steps[0].Halt? then 0 else 1 + Processed(steps[1..])
  }

  /** The error processPath returns for a step that reaches it. */
  function StepError(step: WorkerStep): Option<string>
    requires !step.Halt?
  {
    match step
    case CancelledInProcess => Some(CanceledMessage)
    case Ran(WordErr(m)) => Some(m)
    case Ran(WordOk) => None
  }

  /** The errors a worker forwards to errorChan: all but cancellations, up to its first Halt. */
  function Forwarded(steps: seq<WorkerStep>): seq<string> {
    if steps == [] || steps[0].Halt? then []
    else ForwardedError(StepError(steps[0])) + Forwarded(steps[1..])
  }

  /** The worker forwards an error unless it is a cancellation. */
  function ForwardedError(e: Option<string>): seq<string> {
    if e.Some? && !Contains(e.value, CanceledMessage) then [e.value] else []
  }

  lemma {:induction false} ForwardedNeverCancellation(steps: seq<WorkerStep>)
    ensures forall i :: 0 <= i < |Forwarded(steps)| ==> !Contains(Forwarded(steps)[i], CanceledMessage)
    ensures |Forwarded(steps)| <= Processed(steps)
  {
    if steps != [] && !steps[0].Halt? {
      ForwardedNeverCancellation(steps[1..]);
    }
  }

  /** The package-level counter actualScanned and the functions that update it. */
  class PathScan {
    var actualScanned: int

    /** The counter is an int32. */
    ghost predicate Valid()
      reads this
    {
      Int32.InRange(actualScanned)
    }

    constructor ()
      ensures Valid() && actualScanned == 0
    {
      actualScanned := 0;
    }

    /** ScanDir's first statement resets the counter. */
    method Reset()
      modifies this
      ensures Valid() && actualScanned == 0
    {
      actualScanned := 0;
    }

    /** processPath: the deferred atomic add counts the path whatever the outcome. */
    method ProcessPath(step: WorkerStep) returns (err: Option<string>)
      requires Valid() && !step.Halt?
      modifies this
      ensures Valid()
      ensures actualScanned == Int32.Inc(old(actualScanned))
      ensures err == StepError(step)
      ensures step.CancelledInProcess? ==> err == Some(CanceledMessage)
    {
      match step {
        case CancelledInProcess => err := Some(CanceledMessage);
        case Ran(outcome) => err := if outcome.WordErr? then Some(outcome.msg) else None;
      }
      actualScanned := Int32.Inc(actualScanned);
    }

    /** One worker goroutine of ScanDir, given what it meets for each path it receives. */
    method Worker(steps: seq<WorkerStep>) returns (forwarded: seq<string>)
      requires Valid()
      modifies this
      ensures Valid()
      ensures actualScanned == Int32.Wrap(old(actualScanned) + Processed(steps))
      ensures forwarded == Forwarded(steps)
    {
      forwarded := [];
      var i := 0;
      while i < |steps| && !steps[i].Halt?
        invariant 0 <= i <= |steps|
        invariant Valid()
        invariant actualScanned == Int32.IncTimes(old(actualScanned), i)
        invariant Processed(steps) == i + Processed(steps[i..])
        invariant Forwarded(steps) == forwarded + Forwarded(steps[i..])
      {
        NextStep(steps, i);
        var err := ProcessPath(steps[i]);
        forwarded := forwarded + ForwardedError(err);
        i := i + 1;
      }
      NextStep(steps, i);
      Int32.IncTimesWrap(old(actualScanned), i);
    }
  }

  /** Processed and Forwarded at position i, one step at a time. */
  lemma NextStep(steps: seq<WorkerStep>, i: nat)
    requires i <= |steps|
    ensures i < |steps| && !steps[i].Halt? ==>
      Processed(steps[i..]) == 1 + Processed(steps[i + 1..])
      && Forwarded(steps[i..]) == ForwardedError(StepError(steps[i])) + Forwarded(steps[i + 1..])
    ensures i == |steps| || steps[i].Halt? ==> Processed(steps[i..]) == 0 && Forwarded(steps[i..]) == []
  {
    if i < |steps| {
      assert steps[i..][0] == steps[i] && steps[i..][1..] == steps[i + 1..];
    }
  }

  // ---------------------------------------------------------------- sampler

  /** One tick of the progress goroutine: whether isStopped was set, and the counter it loaded. */
  datatype Tick = Tick(stopped: bool, current: int)

  /** The initial value of lastReported. */
  const NeverReported: int := -1

  /** The value of lastReported after the ticks: the last counter value loaded while not stopped. */
  function LastReported(ticks: seq<Tick>): int {
    if ticks == [] then NeverReported
    else if ticks[|ticks| - 1].stopped then LastReported(ticks[..|ticks| - 1])
    else ticks[|ticks| - 1].current
  }

  /** The reports the sampler makes over the ticks: a tick reports iff it loads a changed value. */
  function Sampled(ticks: seq<Tick>, total: int): seq<ProgressReport> {
    if ticks == [] then []
    else
      var init := ticks[..|ticks| - 1];
      var t := ticks[|ticks| - 1];
      Sampled(init, total)
        + (if !t.stopped && t.current != LastReported(init) then [ProgressReport(t.current, total)] else [])
  }

  /**
   * No two consecutive reports carry the same value, every report carries the
   * total, and the last report (if any) carries the last value loaded: no final
   * change is lost.
   */
  lemma {:induction false} SampledChangesOnly(ticks: seq<Tick>, total: int)
    ensures var r := Sampled(ticks, total);
      && (forall i :: 0 <= i < |r| ==> r[i].total == total)
      && (forall i :: 0 < i < |r| ==> r[i - 1].current != r[i].current)
      && (r == [] ==> LastReported(ticks) == NeverReported)
      && (r != [] ==> r[|r| - 1].current == LastReported(ticks))
  {
    if ticks != [] {
      SampledChangesOnly(ticks[..|ticks| - 1], total);
    }
  }

  /** Reports of a prefix of the ticks are a prefix of the reports. */
  lemma {:induction false} SampledPrefix(ticks: seq<Tick>, total: int, n: nat)
    requires n <= |ticks|
    ensures |Sampled(ticks[..n], total)| <= |Sampled(ticks, total)|
    ensures Sampled(ticks[..n], total) == Sampled(ticks, total)[..|Sampled(ticks[..n], total)|]
    decreases |ticks|
  {
    if n < |ticks| {
      var init := ticks[..|ticks| - 1];
      assert init[..n] == ticks[..n];
      SampledPrefix(init, total, n);
    } else {
      assert ticks[..n] == ticks;
    }
  }

  /** Since lastReported starts at -1, the first tick that loads a non-negative counter is reported. */
  lemma FirstTickReported(ticks: seq<Tick>, total: int)
    requires ticks != [] && !ticks[0].stopped && ticks[0].current >= 0
    ensures Sampled(ticks, total) != [] && Sampled(ticks, total)[0] == ProgressReport(ticks[0].current, total)
  {
    SampledPrefix(ticks, total, 1);
    assert ticks[..1][..0] == [];
  }

  /** The progress goroutine of ScanDir, one loop iteration per tick. */
  method Sample(ticks: seq<Tick>, totalPaths: int) returns (reports: seq<ProgressReport>)
    ensures reports == Sampled(ticks, totalPaths)
  {
    reports := [];
    var lastReported := NeverReported;
    var i := 0;
    while i < |ticks|
      invariant 0 <= i <= |ticks|
      invariant reports == Sampled(ticks[..i], totalPaths)
      invariant lastReported == LastReported(ticks[..i])
    {
      assert ticks[..i + 1][..i] == ticks[..i];
      if !ticks[i].stopped {
        var current := ticks[i].current;
        if current != lastReported {
          reports := reports + [ProgressReport(current, totalPaths)];
          lastReported := current;
        }
      }
      i := i + 1;
    }
    assert ticks[..i] == ticks;
  }

  // ---------------------------------------------------------------- results

  /** http.Header, with its keys already in canonical form (net/http canonicalises on parsing). */
  type Header = map<string, seq<string>>

  /** Header.Get: the first value stored under the key, or "". */
  function HeaderGet(h: Header, key: string): (v: string)
    ensures key !in h || h[key] == [] ==> v == ""
    ensures key in h && h[key] != [] ==> v == h[key][0]
  {
    if key in h && h[key] != [] then h[key][0] else ""
  }

  /** gobusterdir.Result: what the plugin reports for a found path. */
  datatype GobusterResult = GobusterResult(url: string, path: string, statusCode: int, size: int, header: Header)

  /** PathInfo as declared in dirsearch.go. */
  datatype PathInfo = PathInfo(
    url: string, path: string, statusCode: int, contentType: string, contentLength: int, header: Header)

  /** handleResult: the PathInfo handed to the path callback for a found result. */
  function HandleResult(found: GobusterResult): (info: PathInfo)
    ensures info.url == found.url && info.path == found.path && info.statusCode == found.statusCode
    ensures info.contentType == HeaderGet(found.header, "Content-Type")
    ensures info.contentLength == found.size && info.header == found.header
  {
    PathInfo(found.url, found.path, found.statusCode,
             HeaderGet(found.header, "Content-Type"), found.size, found.header)
  }

  /** What the result loop of ScanDir takes from its select, in order. */
  datatype Received =
    | CtxDone                                   // ctx.Done(): cleanup and return context.Canceled
    | ErrorReceived(err: Option<string>)        // errorChan: printed, ignored
    | ResultReceived(r: Option<GobusterResult>) // results, a nil result is skipped
    | ResultsClosed                             // results closed: return nil

  datatype LoopExit = StillWaiting | ReturnedCanceled | ReturnedNil

  /** The index at which the result loop returns, or the number of events if it does not. */
  function ExitIndex(events: seq<Received>): (k: nat)
    ensures k <= |events|
    ensures forall i :: 0 <= i < k ==> !events[i].CtxDone? && !events[i].ResultsClosed?
    ensures k < |events| ==> events[k].CtxDone? || events[k].ResultsClosed?
  {
    if events == [] || events[0].CtxDone? || events[0].ResultsClosed? then 0
    else 1 + ExitIndex(events[1..])
  }

  /** The non-nil results among the events. */
  function FoundResults(events: seq<Received>): seq<GobusterResult> {
    if events == [] then []
    else
      var e := events[|events| - 1];
      FoundResults(events[..|events| - 1])
        + (if e.ResultReceived? && e.r.Some? then [e.r.value] else [])
  }

  function MapHandle(rs: seq<GobusterResult>): (infos: seq<PathInfo>)
    ensures |infos| == |rs|
    ensures forall i :: 0 <= i < |rs| ==> infos[i] == HandleResult(rs[i])
  {
    if rs == [] then [] else MapHandle(rs[..|rs| - 1]) + [HandleResult(rs[|rs| - 1])]
  }

  /**
   * The result loop of ScanDir: pathCallback runs once for every non-nil result
   * received before the loop returns, in the order received.
   */
  method DeliverResults(events: seq<Received>) returns (delivered: seq<PathInfo>, exit: LoopExit)
    ensures delivered == MapHandle(FoundResults(events[..ExitIndex(events)]))
    ensures exit == (if ExitIndex(events) == |events| then StillWaiting
                     else if events[ExitIndex(events)].CtxDone? then ReturnedCanceled
                     else ReturnedNil)
  {
    delivered := [];
    var i := 0;
    while i < |events|
      invariant 0 <= i <= |events| && i <= ExitIndex(events)
      invariant delivered == MapHandle(FoundResults(events[..i]))
    {
      assert events[..i + 1][..i] == events[..i];
      match events[i] {
        case CtxDone =>
          return delivered, ReturnedCanceled;
        case ResultsClosed =>
          return delivered, ReturnedNil;
        case ErrorReceived(_) =>
        case ResultReceived(r) =>
          if r.Some? {
            delivered := delivered + [HandleResult(r.value)];
          }
      }
      i := i + 1;
    }
    exit := StillWaiting;
  }

  // ---------------------------------------------------------------- closing the channels

  /**
   * What closes channels during a ScanDir run: the producer's deferred
   * close, ctx.Done reaching the result loop (which runs cleanup), and the
   * waiter goroutine seeing every worker return (after wg.Wait).
   */
  datatype CloseEvent = ProducerReturned | CtxDoneCleanup | WorkersReturned

  /**
   * The sync.Once values guarding the closes and how often each channel was
   * closed (closing a closed channel panics). As written, the one closeOnce
   * guards both the pathChan close and the results/errorChan close; with
   * separateOnce the output channels have a Once of their own.
   */
  class ChannelCloser {
    const separateOnce: bool
    var pathOnceDone: bool
    var outputOnceDone: bool
    var pathCloses: nat
    var resultsCloses: nat
    var errorCloses: nat

    constructor (separateOnce: bool)
      ensures this.separateOnce == separateOnce
      ensures !pathOnceDone && !outputOnceDone && pathCloses == 0 && resultsCloses == 0 && errorCloses == 0
    {
      this.separateOnce := separateOnce;
      pathOnceDone, outputOnceDone := false, false;
      pathCloses, resultsCloses, errorCloses := 0, 0, 0;
    }

    /** Whether the Once guarding the output close has already run. */
    predicate OutputGuardDone()
      reads this
    {
      if separateOnce then outputOnceDone else pathOnceDone
    }

    /** closeOnce.Do(func() { close(pathChan) }). */
    method ClosePathOnce()
      modifies this
      ensures pathOnceDone && outputOnceDone == old(outputOnceDone)
      ensures pathCloses == old(pathCloses) + (if old(pathOnceDone) then 0 else 1)
      ensures resultsCloses == old(resultsCloses) && errorCloses == old(errorCloses)
    {
      if !pathOnceDone {
        pathOnceDone := true;
        pathCloses := pathCloses + 1;
      }
    }

    /** The Once-guarded close(results); close(errorChan). */
    method CloseOutputsOnce()
      modifies this
      ensures OutputGuardDone()
      ensures separateOnce ==> pathOnceDone == old(pathOnceDone)
      ensures !separateOnce ==> outputOnceDone == old(outputOnceDone)
      ensures pathCloses == old(pathCloses)
      ensures resultsCloses == old(resultsCloses) + (if old(OutputGuardDone()) then 0 else 1)
      ensures errorCloses == old(errorCloses) + (if old(OutputGuardDone()) then 0 else 1)
    {
      if separateOnce {
        if !outputOnceDone {
          outputOnceDone := true;
          resultsCloses, errorCloses := resultsCloses + 1, errorCloses + 1;
        }
      } else if !pathOnceDone {
        pathOnceDone := true;
        resultsCloses, errorCloses := resultsCloses + 1, errorCloses + 1;
      }
    }

    /** cleanup: close pathChan, wait for the workers, close the outputs. */
    method Cleanup()
      modifies this
      ensures pathOnceDone && OutputGuardDone()
      ensures pathCloses == old(pathCloses) + (if old(pathOnceDone) then 0 else 1)
      ensures !separateOnce ==> resultsCloses == old(resultsCloses) && errorCloses == old(errorCloses)
      ensures separateOnce ==>
        && outputOnceDone
        && resultsCloses == old(resultsCloses) + (if old(outputOnceDone) then 0 else 1)
        && errorCloses == old(errorCloses) + (if old(outputOnceDone) then 0 else 1)
    {
      ClosePathOnce();
      CloseOutputsOnce();
    }
  }

  /**
   * The closes of ScanDir as written: pathChan is closed once, by whichever
   * of the producer and cleanup comes first, but results and errorChan are
   * never closed, whatever happens, because cleanup's second Do finds the one
   * closeOnce spent and nothing else closes them. So the result loop cannot
   * see a closed results channel and returns only on ctx.Done.
   */
  method ClosesAsWritten(events: seq<CloseEvent>) returns (pathCloses: nat, resultsCloses: nat, errorCloses: nat)
    ensures pathCloses == if ProducerReturned in events || CtxDoneCleanup in events then 1 else 0
    ensures resultsCloses == 0 && errorCloses == 0
  {
    var c := new ChannelCloser(false);
    var i := 0;
    while i < |events|
      invariant 0 <= i <= |events|
      invariant !c.separateOnce
      invariant c.pathOnceDone <==> ProducerReturned in events[..i] || CtxDoneCleanup in events[..i]
      invariant c.pathCloses == if c.pathOnceDone then 1 else 0
      invariant c.resultsCloses == 0 && c.errorCloses == 0
    {
      assert events[..i + 1] == events[..i] + [events[i]];
      match events[i] {
        case ProducerReturned => c.ClosePathOnce();
        case CtxDoneCleanup => c.Cleanup();
        case WorkersReturned =>   // signals doneChan; closes nothing
      }
      i := i + 1;
    }
    assert events[..i] == events;
    return c.pathCloses, c.resultsCloses, c.errorCloses;
  }

  /**
   * The closes with the evident intent carried out: the output channels have
   * their own Once, and the waiter goroutine closes them once every worker
   * has returned. Each channel is closed at most once, and results is closed
   * exactly when the workers are done or cleanup ran, so a run that is not
   * cancelled ends with the result loop returning nil.
   */
  method ClosesCorrected(events: seq<CloseEvent>) returns (pathCloses: nat, resultsCloses: nat, errorCloses: nat)
    ensures pathCloses == if ProducerReturned in events || CtxDoneCleanup in events then 1 else 0
    ensures resultsCloses == if WorkersReturned in events || CtxDoneCleanup in events then 1 else 0
    ensures errorCloses == resultsCloses
  {
    var c := new ChannelCloser(true);
    var i := 0;
    while i < |events|
      invariant 0 <= i <= |events|
      invariant c.separateOnce
      invariant c.pathOnceDone <==> ProducerReturned in events[..i] || CtxDoneCleanup in events[..i]
      invariant c.outputOnceDone <==> WorkersReturned in events[..i] || CtxDoneCleanup in events[..i]
      invariant c.pathCloses == if c.pathOnceDone then 1 else 0
      invariant c.resultsCloses == c.errorCloses == if c.outputOnceDone then 1 else 0
    {
      assert events[..i + 1] == events[..i] + [events[i]];
      match events[i] {
        case ProducerReturned => c.ClosePathOnce();
        case CtxDoneCleanup => c.Cleanup();
        case WorkersReturned => c.CloseOutputsOnce();
      }
      i := i + 1;
    }
    assert events[..i] == events;
    return c.pathCloses, c.resultsCloses, c.errorCloses;
  }
}
