/**
 * What a migration run promises, proved about `ArchiveModel.Migrate` (which
 * `Archive.Run` computes): the counters agree with the recorded events, the
 * index short-circuits writes, assets are processed in stream order, the
 * error budget aborts on the sixth failed write, and cancellation cuts the
 * run only between groups.
 */
module ArchiveProofs {
  import opened Wrappers
  import opened ArchiveModel

  /**
   * What holds of every trace a run produces: every written or failed
   * asset went through a write,
   * and the writes are exactly the processed assets the index does not know.
   */
  ghost predicate TraceAccounted(index: Option<Index>, t: seq<Event>)
  {
    && Tally(t).written + Tally(t).errors <= |Attempts(t)|
    && Attempts(t) == Unindexed(index, Processed(t))
  }

  /** The loop invariant: the counters are the tally of the trace, and the trace is accounted for. */
  ghost predicate Accounted(index: Option<Index>, st: State)
  {
    st.counts == Tally(st.trace) && TraceAccounted(index, st.trace)
  }

  // ---------------------------------------------------------------------
  // One asset
  // ---------------------------------------------------------------------

  /** Recording a call to `WriteAsset` adds an attempt and nothing else. */
  lemma CalledSnoc(t: seq<Event>, a: Asset)
    ensures Processed(t + [WriteCalled(a)]) == Processed(t)
    ensures Attempts(t + [WriteCalled(a)]) == Attempts(t) + [a]
    ensures Tally(t + [WriteCalled(a)]) == Tally(t)
  {
  }

  /** Recording a close changes no view. */
  lemma ClosedSnoc(t: seq<Event>, a: Asset)
    ensures Processed(t + [Closed(a)]) == Processed(t)
    ensures Attempts(t + [Closed(a)]) == Attempts(t)
    ensures Tally(t + [Closed(a)]) == Tally(t)
  {
  }

  /** Recording a failed write processes the asset and counts an error. */
  lemma ErrorSnoc(t: seq<Event>, a: Asset, msg: string)
    ensures Processed(t + [WriteError(a, msg)]) == Processed(t) + [a]
    ensures Attempts(t + [WriteError(a, msg)]) == Attempts(t)
    ensures Tally(t + [WriteError(a, msg)]) == Tally(t).(errors := Tally(t).errors + 1)
  {
  }

  /** Recording a written asset processes it and counts it as written. */
  lemma WrittenSnoc(t: seq<Event>, a: Asset)
    ensures Processed(t + [Written(a)]) == Processed(t) + [a]
    ensures Attempts(t + [Written(a)]) == Attempts(t)
    ensures Tally(t + [Written(a)]) == Tally(t).(written := Tally(t).written + 1)
  {
  }

  /** The views of a trace after a successful write. */
  lemma WrittenViews(t: seq<Event>, a: Asset)
    ensures var u := t + [WriteCalled(a)] + [Closed(a)] + [Written(a)];
      && Tally(u) == Tally(t).(written := Tally(t).written + 1)
      && Processed(u) == Processed(t) + [a]
      && Attempts(u) == Attempts(t) + [a]
  {
    CalledSnoc(t, a);
    ClosedSnoc(t + [WriteCalled(a)], a);
    WrittenSnoc(t + [WriteCalled(a)] + [Closed(a)], a);
  }

  /** Events appended one at a time, read back after the trace they extend. */
  lemma AppendedEvents(t: seq<Event>, s: seq<Event>)
    ensures |s| == 1 ==> t + [s[0]] == t + s
    ensures |s| == 2 ==> t + [s[0]] + [s[1]] == t + s
    ensures |s| == 3 ==> t + [s[0]] + [s[1]] + [s[2]] == t + s
    ensures (t + s)[|t|..] == s
  {
  }

  /**
   * The index is consulted first: an asset it knows is counted as skipped,
   * recorded as one server duplicate and never handed to the write.
   */
  lemma IndexHitSkips(index: Option<Index>, write: Asset -> WriteOutcome, st: State, a: Asset)
    requires KnownPresent(index, a)
    ensures var r := Step(index, write, st, a);
      && r.Running?
      && r.state.counts == st.counts.(skipped := st.counts.skipped + 1)
      && st.trace <= r.state.trace && r.state.trace[|st.trace|..] == [ServerDuplicate(a)]
      && Tally(r.state.trace) == Tally(st.trace).(skipped := Tally(st.trace).skipped + 1)
      && Processed(r.state.trace) == Processed(st.trace) + [a]
      && Attempts(r.state.trace) == Attempts(st.trace)
  {
  }

  /**
   * An asset the index does not know is written once; when the write answers
   * that the file exists, it is counted as skipped and recorded as one server
   * duplicate, and the error count does not move.
   */
  lemma ExistingFileSkips(index: Option<Index>, write: Asset -> WriteOutcome, st: State, a: Asset)
    requires !KnownPresent(index, a) && write(a) == FileExists
    ensures var r := Step(index, write, st, a);
      && r.Running?
      && r.state.counts == st.counts.(skipped := st.counts.skipped + 1)
      && st.trace <= r.state.trace && r.state.trace[|st.trace|..] == [WriteCalled(a), ServerDuplicate(a)]
      && Tally(r.state.trace) == Tally(st.trace).(skipped := Tally(st.trace).skipped + 1)
      && Processed(r.state.trace) == Processed(st.trace) + [a]
      && Attempts(r.state.trace) == Attempts(st.trace) + [a]
  {
  }

  /**
   * Any other write error is logged and counted as an error; the run aborts
   * exactly when that makes more than `MaxErrors` errors.
   */
  lemma FailedWriteCounts(index: Option<Index>, write: Asset -> WriteOutcome, st: State, a: Asset, msg: string)
    requires !KnownPresent(index, a) && write(a) == WriteFailed(msg)
    ensures var r := Step(index, write, st, a);
      && (r.Aborted? <==> st.counts.errors + 1 > MaxErrors)
      && r.state.counts == st.counts.(errors := st.counts.errors + 1)
      && st.trace <= r.state.trace && r.state.trace[|st.trace|..] == [WriteCalled(a), WriteError(a, msg)]
      && Tally(r.state.trace) == Tally(st.trace).(errors := Tally(st.trace).errors + 1)
      && Processed(r.state.trace) == Processed(st.trace) + [a]
      && Attempts(r.state.trace) == Attempts(st.trace) + [a]
  {
  }

  /** A successful write closes the asset, then records it as written and counts it. */
  lemma SuccessfulWriteCounts(index: Option<Index>, write: Asset -> WriteOutcome, st: State, a: Asset)
    requires !KnownPresent(index, a) && write(a) == WriteOk
    ensures var r := Step(index, write, st, a);
      && r.Running?
      && r.state.counts == st.counts.(written := st.counts.written + 1)
      && st.trace <= r.state.trace && r.state.trace[|st.trace|..] == [WriteCalled(a), Closed(a), Written(a)]
      && Tally(r.state.trace) == Tally(st.trace).(written := Tally(st.trace).written + 1)
      && Processed(r.state.trace) == Processed(st.trace) + [a]
      && Attempts(r.state.trace) == Attempts(st.trace) + [a]
  {
    assert Step(index, write, st, a).state.trace == st.trace + [WriteCalled(a)] + [Closed(a)] + [Written(a)];
    WrittenViews(st.trace, a);
    AppendedEvents(st.trace, [WriteCalled(a), Closed(a), Written(a)]);
  }

  /**
   * Processing one asset records exactly one outcome for it: its counter and
   * its event move together, it is written only when the index does not know
   * it, and an abort is recorded as the failed write of that very asset.
   */
  lemma StepRecords(index: Option<Index>, write: Asset -> WriteOutcome, st: State, a: Asset)
    ensures var r := Step(index, write, st, a);
      && r.state.counts == Bump(st.counts, Classify(index, write, a))
      && (r.Aborted? <==> Classify(index, write, a) == Fail && r.state.counts.errors > MaxErrors)
      && Tally(r.state.trace) == Bump(Tally(st.trace), Classify(index, write, a))
      && Processed(r.state.trace) == Processed(st.trace) + [a]
      && Attempts(r.state.trace) == Attempts(st.trace) + (if KnownPresent(index, a) then [] else [a])
      && (r.Aborted? ==> r.state.trace[|r.state.trace| - 1] == WriteError(a, write(a).message))
  {
    if KnownPresent(index, a) {
      IndexHitSkips(index, write, st, a);
    } else {
      match write(a)
      case FileExists => ExistingFileSkips(index, write, st, a);
      case WriteFailed(msg) => FailedWriteCounts(index, write, st, a, msg);
      case WriteOk => SuccessfulWriteCounts(index, write, st, a);
    }
  }

  /** Every Written, ServerDuplicate or WriteError event is the outcome of one processed asset. */
  lemma {:induction false} TallyCountsProcessed(t: seq<Event>)
    ensures Total(Tally(t)) == |Processed(t)|
  {
    if t != [] {
      TallyCountsProcessed(t[..|t| - 1]);
    }
  }

  /** Recording one more outcome of verdict `v` for asset `a` keeps the loop invariant. */
  lemma RecordKeepsAccounted(index: Option<Index>, st: State, next: State, a: Asset, v: Verdict)
    requires Accounted(index, st)
    requires v != Skip ==> !KnownPresent(index, a)
    requires next.counts == Bump(st.counts, v) && Tally(next.trace) == Bump(Tally(st.trace), v)
    requires Processed(next.trace) == Processed(st.trace) + [a]
    requires Attempts(next.trace) == Attempts(st.trace) + (if KnownPresent(index, a) then [] else [a])
    ensures Accounted(index, next)
  {
  }

  /**
   * Processing one asset keeps the loop invariant, adds that asset to the
   * processed ones, and aborts exactly on the failed write that exhausts
   * the error budget.
   */
  lemma StepKeepsAccounted(index: Option<Index>, write: Asset -> WriteOutcome, st: State, a: Asset)
    requires Accounted(index, st) && st.counts.errors <= MaxErrors
    ensures var r := Step(index, write, st, a);
      && Accounted(index, r.state)
      && Processed(r.state.trace) == Processed(st.trace) + [a]
      && (r.Running? ==> r.state.counts.errors <= MaxErrors)
      && (r.Aborted? ==> r.state.counts.errors == MaxErrors + 1 && r.state.trace[|r.state.trace| - 1].WriteError?)
  {
    StepRecords(index, write, st, a);
    var v := Classify(index, write, a);
    assert v != Skip ==> !KnownPresent(index, a);
    RecordKeepsAccounted(index, st, Step(index, write, st, a).state, a, v);
  }

  // ---------------------------------------------------------------------
  // One group
  // ---------------------------------------------------------------------

  /** Appending the first element, then `n` more, is appending the first `n + 1`. */
  lemma TakeFirstAndMore(p: seq<Asset>, s: seq<Asset>, n: nat)
    requires n < |s|
    ensures (p + [s[0]]) + s[1..][..n] == p + s[..n + 1]
  {
  }

  /**
   * A group keeps the loop invariant; it ends within the error budget, or
   * aborts with exactly one error too many, right after logging that error.
   */
  lemma {:induction false} GroupKeepsAccounted(index: Option<Index>, write: Asset -> WriteOutcome, st: State, assets: seq<Asset>)
    requires Accounted(index, st) && st.counts.errors <= MaxErrors
    ensures var r := Group(index, write, st, assets);
      && Accounted(index, r.state)
      && (r.Running? ==> r.state.counts.errors <= MaxErrors)
      && (r.Aborted? ==> r.state.counts.errors == MaxErrors + 1 && r.state.trace[|r.state.trace| - 1].WriteError?)
    decreases |assets|
  {
    if assets != [] {
      var r := Step(index, write, st, assets[0]);
      StepKeepsAccounted(index, write, st, assets[0]);
      if r.Running? {
        GroupKeepsAccounted(index, write, r.state, assets[1..]);
      }
    }
  }

  /**
   * A group's assets are processed in order: all of them when the run goes
   * on, and a non-empty prefix, ending at the failed write, when it aborts.
   * `done` is how many of them were processed.
   */
  lemma {:induction false} GroupInOrder(index: Option<Index>, write: Asset -> WriteOutcome, st: State, assets: seq<Asset>)
    returns (done: nat)
    ensures var r := Group(index, write, st, assets);
      && done <= |assets|
      && Processed(r.state.trace) == Processed(st.trace) + assets[..done]
      && (r.Running? ==> done == |assets|)
      && (r.Aborted? ==> 0 < done)
    decreases |assets|
  {
    if assets == [] {
      done := 0;
    } else {
      var a := assets[0];
      var r := Step(index, write, st, a);
      StepRecords(index, write, st, a);
      if r.Aborted? {
        done := 1;
        assert assets[..done] == [a];
      } else {
        var rest := GroupInOrder(index, write, r.state, assets[1..]);
        done := rest + 1;
        TakeFirstAndMore(Processed(st.trace), assets, rest);
      }
    }
  }

  // ---------------------------------------------------------------------
  // The stream of groups
  // ---------------------------------------------------------------------

  lemma FlattenNext(groups: seq<seq<Asset>>, k: nat)
    requires k < |groups|
    ensures Flatten(groups[..k + 1]) == Flatten(groups[..k]) + groups[k]
  {
    assert groups[..k + 1][..k] == groups[..k];
  }

  /** Whole groups taken earlier in the stream are a prefix of those taken later. */
  lemma {:induction false} FlattenPrefix(groups: seq<seq<Asset>>, i: nat, j: nat)
    requires i <= j <= |groups|
    ensures Flatten(groups[..i]) <= Flatten(groups[..j])
    decreases j - i
  {
    if i < j {
      FlattenPrefix(groups, i, j - 1);
      FlattenNext(groups, j - 1);
    }
  }

  /** The inner loop only appends events and never lowers a counter. */
  lemma {:induction false} GroupExtends(index: Option<Index>, write: Asset -> WriteOutcome, st: State, assets: seq<Asset>)
    ensures var r := Group(index, write, st, assets);
      st.trace <= r.state.trace && NoneAbove(st.counts, r.state.counts)
    decreases |assets|
  {
    if assets != [] {
      var step := Step(index, write, st, assets[0]);
      StepRecords(index, write, st, assets[0]);
      if step.Running? {
        GroupExtends(index, write, step.state, assets[1..]);
      }
    }
  }

  /**
   * The outer loop only appends events, never reports a scan failure, and
   * ends normally with counters no lower than at the select it starts from.
   */
  lemma {:induction false} DrainExtends(index: Option<Index>, write: Asset -> WriteOutcome, cancelled: nat -> bool,
                                        groups: seq<seq<Asset>>, k: nat, st: State)
    requires k <= |groups|
    ensures var d := Drain(index, write, cancelled, groups, k, st);
      && st.trace <= d.1
      && !d.0.ScanFailed?
      && (d.0.Done? ==> NoneAbove(st.counts, d.0.counts))
    decreases |groups| - k
  {
    if !cancelled(k) && k < |groups| {
      GroupExtends(index, write, st, groups[k]);
      var g := Group(index, write, st, groups[k]);
      if g.Running? {
        DrainExtends(index, write, cancelled, groups, k + 1, g.state);
      }
    }
  }

  /** Part of a group after whole groups is a prefix of one group more. */
  lemma PartOfNextGroup(p: seq<Asset>, g: seq<Asset>, done: nat)
    requires 0 < done <= |g|
    ensures p < p + g[..done] && p + g[..done] <= p + g
  {
  }

  /**
   * The outer loop from its `k`-th select on keeps the invariant; it ends
   * normally with the tally of its trace, and aborts exactly when the trace
   * records one failed write more than `MaxErrors`, the last thing it records.
   */
  lemma {:induction false} DrainKeepsAccounted(index: Option<Index>, write: Asset -> WriteOutcome, cancelled: nat -> bool,
                                               groups: seq<seq<Asset>>, k: nat, st: State)
    requires k <= |groups|
    requires Accounted(index, st) && st.counts.errors <= MaxErrors
    ensures var d := Drain(index, write, cancelled, groups, k, st);
      var r, t := d.0, d.1;
      && TraceAccounted(index, t)
      && (r.TooManyErrors? <==> Tally(t).errors > MaxErrors)
      && Tally(t).errors <= MaxErrors + 1
      && (r.TooManyErrors? ==> |t| > 0 && t[|t| - 1].WriteError?)
      && (r.Done? ==> r.counts == Tally(t))
    decreases |groups| - k
  {
    if !cancelled(k) && k < |groups| {
      GroupKeepsAccounted(index, write, st, groups[k]);
      var g := Group(index, write, st, groups[k]);
      if g.Running? {
        DrainKeepsAccounted(index, write, cancelled, groups, k + 1, g.state);
      }
    }
  }

  /**
   * The outer loop from its `k`-th select on, when the groups before `k`
   * have been processed whole. `j` is the select at which the run ends, or
   * the group it aborts in: no select before it was cancelled, the groups
   * before it were processed whole and in order, and nothing after the
   * aborting group was touched.
   */
  lemma {:induction false} DrainInOrder(index: Option<Index>, write: Asset -> WriteOutcome, cancelled: nat -> bool,
                                        groups: seq<seq<Asset>>, k: nat, st: State)
    returns (j: nat)
    requires k <= |groups|
    requires Processed(st.trace) == Flatten(groups[..k])
    ensures var d := Drain(index, write, cancelled, groups, k, st);
      var r, t := d.0, d.1;
      && k <= j <= |groups|
      && (forall i :: k <= i < j ==> !cancelled(i))
      && (r.Done? ==> j == |groups| && !cancelled(j))
      && (r.Cancelled? ==> cancelled(j))
      && (!r.TooManyErrors? ==> Processed(t) == Flatten(groups[..j]))
      && (r.TooManyErrors? ==> j < |groups| && !cancelled(j)
                               && Flatten(groups[..j]) < Processed(t) <= Flatten(groups[..j + 1]))
    decreases |groups| - k
  {
    if cancelled(k) || k == |groups| {
      j := k;
    } else {
      var done := GroupInOrder(index, write, st, groups[k]);
      FlattenNext(groups, k);
      var g := Group(index, write, st, groups[k]);
      if g.Aborted? {
        j := k;
        PartOfNextGroup(Flatten(groups[..k]), groups[k], done);
      } else {
        assert groups[k][..done] == groups[k];
        j := DrainInOrder(index, write, cancelled, groups, k + 1, g.state);
      }
    }
  }

  // ---------------------------------------------------------------------
  // Counters against the verdicts of the stream
  // ---------------------------------------------------------------------

  /** One more asset adds its own verdict. */
  lemma VerdictsSnoc(index: Option<Index>, write: Asset -> WriteOutcome, s: seq<Asset>, a: Asset)
    ensures Verdicts(index, write, s + [a]) == Bump(Verdicts(index, write, s), Classify(index, write, a))
  {
    assert (s + [a])[..|s|] == s;
  }

  /** The verdicts of a prefix are no more than those of the whole. */
  lemma {:induction false} VerdictsPrefix(index: Option<Index>, write: Asset -> WriteOutcome, p: seq<Asset>, s: seq<Asset>)
    requires p <= s
    ensures NoneAbove(Verdicts(index, write, p), Verdicts(index, write, s))
  {
    if p != s {
      assert p <= s[..|s| - 1];
      VerdictsPrefix(index, write, p, s[..|s| - 1]);
    }
  }

  /** A group keeps the tally of the trace equal to the verdicts of the processed assets. */
  lemma {:induction false} GroupFollowsVerdicts(index: Option<Index>, write: Asset -> WriteOutcome, st: State, assets: seq<Asset>)
    requires Tally(st.trace) == Verdicts(index, write, Processed(st.trace))
    ensures var t := Group(index, write, st, assets).state.trace;
      Tally(t) == Verdicts(index, write, Processed(t))
    decreases |assets|
  {
    if assets != [] {
      var r := Step(index, write, st, assets[0]);
      StepRecords(index, write, st, assets[0]);
      VerdictsSnoc(index, write, Processed(st.trace), assets[0]);
      if r.Running? {
        GroupFollowsVerdicts(index, write, r.state, assets[1..]);
      }
    }
  }

  /** The outer loop keeps the tally of the trace equal to the verdicts of the processed assets. */
  lemma {:induction false} DrainFollowsVerdicts(index: Option<Index>, write: Asset -> WriteOutcome, cancelled: nat -> bool,
                                                groups: seq<seq<Asset>>, k: nat, st: State)
    requires k <= |groups|
    requires Tally(st.trace) == Verdicts(index, write, Processed(st.trace))
    ensures var t := Drain(index, write, cancelled, groups, k, st).1;
      Tally(t) == Verdicts(index, write, Processed(t))
    decreases |groups| - k
  {
    if !cancelled(k) && k < |groups| {
      GroupFollowsVerdicts(index, write, st, groups[k]);
      var g := Group(index, write, st, groups[k]);
      if g.Running? {
        DrainFollowsVerdicts(index, write, cancelled, groups, k + 1, g.state);
      }
    }
  }

  // ---------------------------------------------------------------------
  // Sequences filtered by the index
  // ---------------------------------------------------------------------

  /** Without an index, no asset is filtered out. */
  lemma {:induction false} UnindexedWithoutIndex(s: seq<Asset>)
    ensures Unindexed(None, s) == s
  {
    if s != [] {
      UnindexedWithoutIndex(s[..|s| - 1]);
    }
  }

  /** No asset the index knows survives the filter. */
  lemma {:induction false} UnindexedUnknown(index: Option<Index>, s: seq<Asset>)
    ensures forall a :: a in Unindexed(index, s) ==> a in s && !KnownPresent(index, a)
  {
    if s != [] {
      UnindexedUnknown(index, s[..|s| - 1]);
    }
  }

  /** When the index knows every asset, the filter keeps none. */
  lemma {:induction false} UnindexedAllKnown(index: Option<Index>, s: seq<Asset>)
    requires forall a :: a in s ==> KnownPresent(index, a)
    ensures Unindexed(index, s) == []
  {
    if s != [] {
      assert s[|s| - 1] in s;
      UnindexedAllKnown(index, s[..|s| - 1]);
    }
  }

  /** Everything in a prefix is in the sequence it starts. */
  lemma PrefixMembers<T>(p: seq<T>, q: seq<T>)
    requires p <= q
    ensures forall x :: x in p ==> x in q
  {
  }

  // ---------------------------------------------------------------------
  // What a run promises
  // ---------------------------------------------------------------------

  lemma StartsAccounted(dest: Destination, groups: seq<seq<Asset>>)
    ensures Accounted(IndexOf(dest), Initial)
    ensures Processed(Initial.trace) == Flatten(groups[..0])
  {
  }

  /**
   * A failed scan of a local writer ends the run with the scan's error
   * before any asset is looked at; no other run ends that way.
   */
  lemma ScanFailureComesFirst(dest: Destination, groups: seq<seq<Asset>>, cancelled: nat -> bool)
    ensures var d := Migrate(dest, groups, cancelled);
      && (d.0.ScanFailed? <==> dest.local.Some? && dest.local.value.scan.ScanError?)
      && (d.0.ScanFailed? ==> d.0.message == dest.local.value.scan.message && d.1 == [])
  {
    if Setup(dest).Success? {
      DrainExtends(IndexOf(dest), dest.write, cancelled, groups, 0, Initial);
    }
  }

  /** A trace that processed the whole stream counts one outcome per asset of it. */
  lemma CountsWholeStream(t: seq<Event>, groups: seq<seq<Asset>>)
    requires Processed(t) == Flatten(groups)
    ensures Total(Tally(t)) == |Flatten(groups)|
  {
    TallyCountsProcessed(t);
  }

  /**
   * The counters are the tally of what was recorded: a run that ends
   * normally reports one counted outcome per asset of the stream, and at
   * most `MaxErrors` errors.
   */
  lemma CountersMatchEvents(dest: Destination, groups: seq<seq<Asset>>, cancelled: nat -> bool)
    ensures var d := Migrate(dest, groups, cancelled);
      d.0.Done? ==> && d.0.counts == Tally(d.1)
                    && Total(d.0.counts) == |Flatten(groups)|
                    && d.0.counts.errors <= MaxErrors
  {
    var d := Migrate(dest, groups, cancelled);
    if Setup(dest).Success? {
      StartsAccounted(dest, groups);
      DrainKeepsAccounted(IndexOf(dest), dest.write, cancelled, groups, 0, Initial);
      StreamOrderKept(dest, groups, cancelled);
      if d.0.Done? {
        CountsWholeStream(d.1, groups);
      }
    }
  }

  /**
   * Assets are processed in stream order, group after group and asset after
   * asset, with none skipped over: what was processed is a prefix of the
   * stream, and all of it when the run ends normally.
   */
  lemma StreamOrderKept(dest: Destination, groups: seq<seq<Asset>>, cancelled: nat -> bool)
    ensures var d := Migrate(dest, groups, cancelled);
      && Processed(d.1) <= Flatten(groups)
      && (d.0.Done? ==> Processed(d.1) == Flatten(groups))
  {
    if Setup(dest).Success? {
      StartsAccounted(dest, groups);
      var j := DrainInOrder(IndexOf(dest), dest.write, cancelled, groups, 0, Initial);
      assert groups[..|groups|] == groups;
      if j < |groups| {
        FlattenPrefix(groups, j + 1, |groups|);
      }
      FlattenPrefix(groups, j, |groups|);
    }
  }

  /**
   * `WriteAsset` is called exactly for the processed assets the index does
   * not know, in order and once each; every written or failed asset went
   * through it.
   */
  lemma WritesFollowIndex(dest: Destination, groups: seq<seq<Asset>>, cancelled: nat -> bool)
    ensures var t := Migrate(dest, groups, cancelled).1;
      && Attempts(t) == Unindexed(IndexOf(dest), Processed(t))
      && Tally(t).written + Tally(t).errors <= |Attempts(t)|
  {
    if Setup(dest).Success? {
      StartsAccounted(dest, groups);
      DrainKeepsAccounted(IndexOf(dest), dest.write, cancelled, groups, 0, Initial);
    }
  }

  /** An asset whose path the index marks present is never handed to `WriteAsset`. */
  lemma IndexedAssetsNeverWritten(dest: Destination, groups: seq<seq<Asset>>, cancelled: nat -> bool)
    ensures var t := Migrate(dest, groups, cancelled).1;
      forall a :: a in Attempts(t) ==> a in Processed(t) && !KnownPresent(IndexOf(dest), a)
  {
    var t := Migrate(dest, groups, cancelled).1;
    WritesFollowIndex(dest, groups, cancelled);
    UnindexedUnknown(IndexOf(dest), Processed(t));
  }

  /**
   * Without an index (the destination is not a local writer, or its scan
   * returned a nil map) every processed asset goes to `WriteAsset`.
   */
  lemma NoIndexWritesEveryAsset(dest: Destination, groups: seq<seq<Asset>>, cancelled: nat -> bool)
    requires dest.local.None? || dest.local.value.scan == Scanned(None)
    ensures var t := Migrate(dest, groups, cancelled).1;
      Attempts(t) == Processed(t)
  {
    var t := Migrate(dest, groups, cancelled).1;
    WritesFollowIndex(dest, groups, cancelled);
    UnindexedWithoutIndex(Processed(t));
  }

  /**
   * The error budget: a run aborts with "too many errors" exactly when the
   * sixth write fails, and that failed write is the last thing it records;
   * skips never count towards it.
   */
  lemma ErrorBudgetAborts(dest: Destination, groups: seq<seq<Asset>>, cancelled: nat -> bool)
    ensures var d := Migrate(dest, groups, cancelled);
      var r, t := d.0, d.1;
      && (r.TooManyErrors? <==> Tally(t).errors > MaxErrors)
      && Tally(t).errors <= MaxErrors + 1
      && (r.TooManyErrors? ==> Tally(t).errors == MaxErrors + 1 && |t| > 0 && t[|t| - 1].WriteError?)
  {
    if Setup(dest).Success? {
      StartsAccounted(dest, groups);
      DrainKeepsAccounted(IndexOf(dest), dest.write, cancelled, groups, 0, Initial);
    }
  }

  /**
   * Cancellation is seen only at a select: a cancelled run has processed
   * whole groups, up to the first select that took the cancellation; a run
   * that ends normally met no cancellation at any select.
   */
  lemma CancellationBetweenGroups(dest: Destination, groups: seq<seq<Asset>>, cancelled: nat -> bool)
    ensures var d := Migrate(dest, groups, cancelled);
      && (d.0.Cancelled? ==> exists j :: 0 <= j <= |groups| && cancelled(j)
                                        && (forall i :: 0 <= i < j ==> !cancelled(i))
                                        && Processed(d.1) == Flatten(groups[..j]))
      && (d.0.Done? ==> forall i :: 0 <= i <= |groups| ==> !cancelled(i))
  {
    if Setup(dest).Success? {
      StartsAccounted(dest, groups);
      var j := DrainInOrder(IndexOf(dest), dest.write, cancelled, groups, 0, Initial);
    }
  }

  /**
   * The events a run records add up to the verdicts of the assets it
   * processed, one by one.
   */
  lemma RunFollowsVerdicts(dest: Destination, groups: seq<seq<Asset>>, cancelled: nat -> bool)
    ensures var t := Migrate(dest, groups, cancelled).1;
      Tally(t) == Verdicts(IndexOf(dest), dest.write, Processed(t))
  {
    if Setup(dest).Success? {
      DrainFollowsVerdicts(IndexOf(dest), dest.write, cancelled, groups, 0, Initial);
    }
  }

  /**
   * A run that ends normally reports, for each counter, how many assets of
   * the stream got that verdict: written, skipped (known to the index or
   * already existing) or failed.
   */
  lemma CountersFollowVerdicts(dest: Destination, groups: seq<seq<Asset>>, cancelled: nat -> bool)
    ensures var r := Migrate(dest, groups, cancelled).0;
      r.Done? ==> r.counts == Verdicts(IndexOf(dest), dest.write, Flatten(groups))
  {
    RunFollowsVerdicts(dest, groups, cancelled);
    StreamOrderKept(dest, groups, cancelled);
    CountersMatchEvents(dest, groups, cancelled);
  }

  /**
   * The error budget in terms of the stream: with no cancellation, a run
   * whose stream holds at most `MaxErrors` assets that fail to write ends
   * normally with that many errors, and one that holds more aborts with
   * "too many errors".
   */
  lemma StreamErrorBudget(dest: Destination, groups: seq<seq<Asset>>, cancelled: nat -> bool)
    requires Setup(dest).Success?
    requires forall i :: 0 <= i <= |groups| ==> !cancelled(i)
    ensures var r := Migrate(dest, groups, cancelled).0;
      var failing := Verdicts(IndexOf(dest), dest.write, Flatten(groups)).errors;
      && (failing <= MaxErrors ==> r.Done? && r.counts.errors == failing)
      && (failing > MaxErrors ==> r.TooManyErrors?)
  {
    var d := Migrate(dest, groups, cancelled);
    var t := d.1;
    var failing := Verdicts(IndexOf(dest), dest.write, Flatten(groups)).errors;
    assert !d.0.Cancelled? && !d.0.ScanFailed? by {
      CancellationBetweenGroups(dest, groups, cancelled);
      ScanFailureComesFirst(dest, groups, cancelled);
    }
    assert d.0.TooManyErrors? ==> failing > MaxErrors by {
      ErrorBudgetAborts(dest, groups, cancelled);
      RunFollowsVerdicts(dest, groups, cancelled);
      StreamOrderKept(dest, groups, cancelled);
      VerdictsPrefix(IndexOf(dest), dest.write, Processed(t), Flatten(groups));
    }
    assert d.0.Done? ==> d.0.counts.errors == failing <= MaxErrors by {
      CountersFollowVerdicts(dest, groups, cancelled);
      CountersMatchEvents(dest, groups, cancelled);
    }
  }

  /**
   * Re-running against a destination whose index already holds every asset
   * of the stream writes nothing and reports every asset as skipped.
   */
  lemma RerunSkipsEverything(dest: Destination, groups: seq<seq<Asset>>, cancelled: nat -> bool)
    requires Setup(dest).Success?
    requires forall a :: a in Flatten(groups) ==> KnownPresent(IndexOf(dest), a)
    requires forall i :: 0 <= i <= |groups| ==> !cancelled(i)
    ensures var d := Migrate(dest, groups, cancelled);
      && d.0 == Done(Counts(0, |Flatten(groups)|, 0))
      && Attempts(d.1) == []
  {
    var d := Migrate(dest, groups, cancelled);
    var t := d.1;
    assert Attempts(t) == [] && Tally(t).written == 0 && Tally(t).errors == 0 by {
      StreamOrderKept(dest, groups, cancelled);
      PrefixMembers(Processed(t), Flatten(groups));
      UnindexedAllKnown(IndexOf(dest), Processed(t));
      WritesFollowIndex(dest, groups, cancelled);
    }
    assert d.0.Done? by {
      ErrorBudgetAborts(dest, groups, cancelled);
      CancellationBetweenGroups(dest, groups, cancelled);
      ScanFailureComesFirst(dest, groups, cancelled);
    }
    CountersMatchEvents(dest, groups, cancelled);
  }
}
