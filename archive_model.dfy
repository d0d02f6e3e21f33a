/**
 * The archive command's migration loop, as pure specification functions.
 *
 * One run drains a stream of asset groups from a source into a destination.
 * Each asset is skipped when a pre-scanned index of the destination already
 * holds its path, and is otherwise written; the write's answer classifies it
 * as written, skipped (the file already exists) or failed. Three counters
 * follow these outcomes, and the run gives up after more than `MaxErrors`
 * failed writes. Cancellation is observed only between groups.
 */
module ArchiveModel {
  import opened Wrappers

  /** The run aborts as soon as more than this many writes have failed. */
  const MaxErrors: nat := 5

  /**
   * One transferable asset. `id` tells apart assets that share a file name
   * (two IMG_0001.JPG from different folders); the destination sees an
   * asset through its functions only, so they may map such assets apart.
   */
  datatype Asset = Asset(id: nat, name: string)

  /** What `WriteAsset` answers: nil, an error wrapping `ErrFileExists`, or any other error. */
  datatype WriteOutcome = WriteOk | FileExists | WriteFailed(message: string)

  /** What `ScanExistingFiles` answers: an error, or a map that may be nil. */
  datatype ScanResult = ScanError(message: string) | Scanned(files: Option<map<string, bool>>)

  /** The capabilities of a local folder writer beyond writing. */
  datatype LocalWriter = LocalWriter(scan: ScanResult, pathOf: Asset -> string)

  /** A destination: it writes, and it may be a local folder writer. */
  datatype Destination = Destination(write: Asset -> WriteOutcome, local: Option<LocalWriter>)

  /** The existence index: the scanned paths, and how an asset is mapped to its path. */
  datatype Index = Index(files: map<string, bool>, pathOf: Asset -> string)

  /** What a run does that can be observed from outside, in order. */
  datatype Event =
    | WriteCalled(asset: Asset)                   // `dest.WriteAsset` is invoked
    | ServerDuplicate(asset: Asset)               // `UploadServerDuplicate` is recorded
    | WriteError(asset: Asset, message: string)   // the write error is logged
    | Closed(asset: Asset)                        // `a.Close()` on the success path
    | Written(asset: Asset)                       // `Written` is recorded

  datatype Counts = Counts(written: nat, skipped: nat, errors: nat)

  /** The loop's variables: the three counters and what has been done so far. */
  datatype State = State(counts: Counts, trace: seq<Event>)

  /** After an asset or a group: carry on, or the error budget is exhausted. */
  datatype Progress = Running(state: State) | Aborted(state: State)

  /** How a run ends: normally with its counters, or with one of three errors. */
  datatype RunResult =
    | Done(counts: Counts)
    | Cancelled
    | TooManyErrors
    | ScanFailed(message: string)

  /** The three ways an asset can end. */
  datatype Verdict = Skip | Fail | Write

  const Initial: State := State(Counts(0, 0, 0), [])

  // ---------------------------------------------------------------------
  // Views of a trace
  // ---------------------------------------------------------------------

  /** The assets whose outcome the trace records, in order. */
  function Processed(t: seq<Event>): seq<Asset>
  {
    if t == [] then []
    else
      var e := t[|t| - 1];
      Processed(t[..|t| - 1]) + (if e.WriteCalled? || e.Closed? then [] else [e.asset])
  }

  /** The assets handed to `WriteAsset`, in order. */
  function Attempts(t: seq<Event>): seq<Asset>
  {
    if t == [] then []
    else
      var e := t[|t| - 1];
      Attempts(t[..|t| - 1]) + (if e.WriteCalled? then [e.asset] else [])
  }

  /** Counts the Written, ServerDuplicate and WriteError events of a trace. */
  function Tally(t: seq<Event>): Counts
  {
    if t == [] then Counts(0, 0, 0)
    else
      var c := Tally(t[..|t| - 1]);
      match t[|t| - 1]
      case Written(_) => c.(written := c.written + 1)
      case ServerDuplicate(_) => c.(skipped := c.skipped + 1)
      case WriteError(_, _) => c.(errors := c.errors + 1)
      case _ => c
  }

  /** The groups' assets, one group after another. */
  function Flatten(groups: seq<seq<Asset>>): seq<Asset>
  {
    if groups == [] then [] else Flatten(groups[..|groups| - 1]) + groups[|groups| - 1]
  }

  // ---------------------------------------------------------------------
  // Classification of one asset
  // ---------------------------------------------------------------------

  /** The index holds the asset's path, marked present (a missing key reads as false). */
  predicate KnownPresent(index: Option<Index>, a: Asset)
  {
    index.Some? &&
    var p := index.value.pathOf(a);
    p in index.value.files && index.value.files[p]
  }

  /** The assets of `s` that the index does not know, in order. */
  function Unindexed(index: Option<Index>, s: seq<Asset>): seq<Asset>
  {
    if s == [] then []
    else Unindexed(index, s[..|s| - 1]) + (if KnownPresent(index, s[|s| - 1]) then [] else [s[|s| - 1]])
  }

  /** The outcome an asset gets: skipped when indexed or already existing, else by the write. */
  function Classify(index: Option<Index>, write: Asset -> WriteOutcome, a: Asset): Verdict
  {
    if KnownPresent(index, a) then Skip
    else match write(a)
      case FileExists => Skip
      case WriteFailed(_) => Fail
      case WriteOk => Write
  }

  /** Raises the counter of verdict `v` by one. */
  function Bump(c: Counts, v: Verdict): Counts
  {
    match v
    case Write => c.(written := c.written + 1)
    case Skip => c.(skipped := c.skipped + 1)
    case Fail => c.(errors := c.errors + 1)
  }

  /** The counts the verdicts of the assets of `s` add up to, asset by asset. */
  function Verdicts(index: Option<Index>, write: Asset -> WriteOutcome, s: seq<Asset>): Counts
  {
    if s == [] then Counts(0, 0, 0)
    else Bump(Verdicts(index, write, s[..|s| - 1]), Classify(index, write, s[|s| - 1]))
  }

  /** How many assets the counters account for. */
  function Total(c: Counts): nat
  {
    c.written + c.skipped + c.errors
  }

  /** No counter of `c` is above the same counter of `d`. */
  predicate NoneAbove(c: Counts, d: Counts)
  {
    c.written <= d.written && c.skipped <= d.skipped && c.errors <= d.errors
  }

  // ---------------------------------------------------------------------
  // The loop
  // ---------------------------------------------------------------------

  /** One iteration of the inner loop, over asset `a`. */
  function Step(index: Option<Index>, write: Asset -> WriteOutcome, st: State, a: Asset): Progress
  {
    var c := st.counts;
    if KnownPresent(index, a) then
      Running(State(c.(skipped := c.skipped + 1), st.trace + [ServerDuplicate(a)]))
    else
      var called := st.trace + [WriteCalled(a)];
      match write(a)
      case FileExists =>
        Running(State(c.(skipped := c.skipped + 1), called + [ServerDuplicate(a)]))
      case WriteFailed(msg) =>
        var next := State(c.(errors := c.errors + 1), called + [WriteError(a, msg)]);
        if next.counts.errors > MaxErrors then Aborted(next) else Running(next)
      case WriteOk =>
        Running(State(c.(written := c.written + 1), called + [Closed(a)] + [Written(a)]))
  }

  /** The inner loop: the assets of one group, in order, until the error budget runs out. */
  function Group(index: Option<Index>, write: Asset -> WriteOutcome, st: State, assets: seq<Asset>): Progress
    decreases |assets|
  {
    if assets == [] then Running(st)
    else
      match Step(index, write, st, assets[0])
      case Aborted(next) => Aborted(next)
      case Running(next) => Group(index, write, next, assets[1..])
  }

  /**
   * The outer loop from its `k`-th select on: cancellation (when the oracle
   * picks it), the closed stream, or the next group.
   */
  function Drain(index: Option<Index>, write: Asset -> WriteOutcome, cancelled: nat -> bool,
                 groups: seq<seq<Asset>>, k: nat, st: State): (RunResult, seq<Event>)
    requires k <= |groups|
    decreases |groups| - k
  {
    if cancelled(k) then (Cancelled, st.trace)
    else if k == |groups| then (Done(st.counts), st.trace)
    else
      match Group(index, write, st, groups[k])
      case Aborted(next) => (TooManyErrors, next.trace)
      case Running(next) => Drain(index, write, cancelled, groups, k + 1, next)
  }

  /** The set-up: the existence index of a local writer, or the scan's error. */
  function Setup(dest: Destination): Result<Option<Index>, string>
  {
    if dest.local.None? then Success(None)
    else
      match dest.local.value.scan
      case ScanError(e) => Failure(e)
      case Scanned(None) => Success(None)
      case Scanned(Some(files)) => Success(Some(Index(files, dest.local.value.pathOf)))
  }

  /** The index a run consults (none when the scan failed: then no asset is looked at). */
  function IndexOf(dest: Destination): Option<Index>
  {
    match Setup(dest)
    case Success(index) => index
    case Failure(_) => None
  }

  /** A whole run: set-up, then the outer loop from its first select. */
  function Migrate(dest: Destination, groups: seq<seq<Asset>>, cancelled: nat -> bool): (RunResult, seq<Event>)
  {
    match Setup(dest)
    case Failure(e) => (ScanFailed(e), [])
    case Success(index) => Drain(index, dest.write, cancelled, groups, 0, Initial)
  }
}
