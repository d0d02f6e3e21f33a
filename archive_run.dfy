/**
 * The archive command's `run`: the migration loop as the program runs it,
 * with its three counters, nested loops, `continue`s and early returns,
 * proved to compute exactly what `ArchiveModel.Migrate` specifies.
 */
module Archive {
  import opened Wrappers
  import opened ArchiveModel

  /** The inner loop's next iteration: one step, then the rest of the group. */
  lemma GroupFrom(index: Option<Index>, write: Asset -> WriteOutcome, st: State, assets: seq<Asset>, j: nat)
    requires j < |assets|
    ensures Group(index, write, st, assets[j..])
         == match Step(index, write, st, assets[j])
            case Aborted(next) => Aborted(next)
            case Running(next) => Group(index, write, next, assets[j + 1..])
  {
  }

  /**
   * Drains `groups` into `dest` and returns how the run ended with what it
   * did. `cancelled(k)` says whether the select after the `k`-th group (the
   * first select, for `k == 0`) takes the context's cancellation rather than
   * the channel; the select after the last group sees the channel closed.
   */
  method Run(dest: Destination, groups: seq<seq<Asset>>, cancelled: nat -> bool)
    returns (result: RunResult, trace: seq<Event>)
    ensures (result, trace) == Migrate(dest, groups, cancelled)
  {
    var localDest := dest.local;
    var existingFiles: Option<map<string, bool>> := None;
    if localDest.Some? {
      match localDest.value.scan
      case ScanError(e) =>
        return ScanFailed(e), [];
      case Scanned(files) =>
        existingFiles := files;
    }
    ghost var index := IndexOf(dest);
    assert Migrate(dest, groups, cancelled) == Drain(index, dest.write, cancelled, groups, 0, Initial);

    var errCount, skippedCount, writtenCount := 0, 0, 0;
    trace := [];
    var k := 0;
    while k < |groups| && !cancelled(k)
      invariant k <= |groups|
      invariant Drain(index, dest.write, cancelled, groups, 0, Initial)
             == Drain(index, dest.write, cancelled, groups, k,
                      State(Counts(writtenCount, skippedCount, errCount), trace))
      decreases |groups| - k
    {
      var assets := groups[k];
      ghost var atSelect := State(Counts(writtenCount, skippedCount, errCount), trace);
      var j := 0;
      while j < |assets|
        invariant j <= |assets|
        invariant Group(index, dest.write, atSelect, assets)
               == Group(index, dest.write, State(Counts(writtenCount, skippedCount, errCount), trace), assets[j..])
        decreases |assets| - j
      {
        var a := assets[j];
        ghost var step := Step(index, dest.write, State(Counts(writtenCount, skippedCount, errCount), trace), a);
        GroupFrom(index, dest.write, State(Counts(writtenCount, skippedCount, errCount), trace), assets, j);
        j := j + 1;

        if localDest.Some? && existingFiles.Some? {
          var destPath := localDest.value.pathOf(a);
          if destPath in existingFiles.value && existingFiles.value[destPath] {
            trace := trace + [ServerDuplicate(a)];
            skippedCount := skippedCount + 1;
            assert step == Running(State(Counts(writtenCount, skippedCount, errCount), trace));
            continue;
          }
        }
        assert !KnownPresent(index, a);

        var outcome := dest.write(a);
        trace := trace + [WriteCalled(a)];
        match outcome {
          case FileExists =>
            trace := trace + [ServerDuplicate(a)];
            skippedCount := skippedCount + 1;
            assert step == Running(State(Counts(writtenCount, skippedCount, errCount), trace));
            continue;
          case WriteFailed(msg) =>
            trace := trace + [WriteError(a, msg)];
            errCount := errCount + 1;
            if errCount > MaxErrors {
              assert step == Aborted(State(Counts(writtenCount, skippedCount, errCount), trace));
              return TooManyErrors, trace;
            }
            assert step == Running(State(Counts(writtenCount, skippedCount, errCount), trace));
            continue;
          case WriteOk =>
        }

        trace := trace + [Closed(a)];
        trace := trace + [Written(a)];
        writtenCount := writtenCount + 1;
        assert step == Running(State(Counts(writtenCount, skippedCount, errCount), trace));
      }
      assert assets[j..] == [];
      k := k + 1;
    }

    if cancelled(k) {
      return Cancelled, trace;
    }
    result := Done(Counts(writtenCount, skippedCount, errCount));
  }
}
