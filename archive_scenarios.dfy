/** Two runs worked through event by event. */
module ArchiveScenarios {
  import opened Wrappers
  import opened ArchiveModel
  import opened ArchiveProofs

  /** A local writer that stores asset `a` under the path `a.name`. */
  function LocalDest(present: map<string, bool>, write: Asset -> WriteOutcome): Destination
  {
    Destination(write, Some(LocalWriter(Scanned(Some(present)), (a: Asset) => a.name)))
  }

  /**
   * Groups {A, B} and {C}, with A already in the index, B written and C
   * reported as existing by the destination: one written, two skipped, no
   * error, and `WriteAsset` called for B and C only.
   */
  lemma IndexHitAndExistingFile()
    ensures var write := (a: Asset) => if a.name == "C" then FileExists else WriteOk;
      var dest := LocalDest(map["A" := true], write);
      Migrate(dest, [[Asset(0, "A"), Asset(1, "B")], [Asset(2, "C")]], (k: nat) => false)
      == (Done(Counts(1, 2, 0)),
          [ServerDuplicate(Asset(0, "A")),
           WriteCalled(Asset(1, "B")), Closed(Asset(1, "B")), Written(Asset(1, "B")),
           WriteCalled(Asset(2, "C")), ServerDuplicate(Asset(2, "C"))])
  {
    var write := (a: Asset) => if a.name == "C" then FileExists else WriteOk;
    var dest := LocalDest(map["A" := true], write);
    var cancelled := (k: nat) => false;
    var A, B, C := Asset(0, "A"), Asset(1, "B"), Asset(2, "C");
    var groups := [[A, B], [C]];
    var index := IndexOf(dest);
    assert KnownPresent(index, A) && !KnownPresent(index, B) && !KnownPresent(index, C);

    var s1 := State(Counts(0, 1, 0), [ServerDuplicate(A)]);
    var s2 := State(Counts(1, 1, 0), s1.trace + [WriteCalled(B), Closed(B), Written(B)]);
    var s3 := State(Counts(1, 2, 0), s2.trace + [WriteCalled(C), ServerDuplicate(C)]);
    assert Step(index, write, Initial, A) == Running(s1);
    assert Step(index, write, s1, B) == Running(s2);
    assert Step(index, write, s2, C) == Running(s3);
    assert [A, B][1..] == [B] && [B][1..] == [] && [C][1..] == [];
    assert Group(index, write, s1, [B]) == Running(s2);
    assert Group(index, write, Initial, [A, B]) == Running(s2);
    assert Group(index, write, s2, [C]) == Running(s3);
    assert Drain(index, write, cancelled, groups, 2, s3) == (Done(s3.counts), s3.trace);
    assert Drain(index, write, cancelled, groups, 1, s2) == (Done(s3.counts), s3.trace);
    assert Drain(index, write, cancelled, groups, 0, Initial) == (Done(s3.counts), s3.trace);
    assert Migrate(dest, groups, cancelled) == Drain(index, write, cancelled, groups, 0, Initial);
    assert s3.trace == [ServerDuplicate(A), WriteCalled(B), Closed(B), Written(B), WriteCalled(C), ServerDuplicate(C)];
  }

  /** The state after the first `n` writes of `assets` failed with `msg`, with no index. */
  function AfterFailures(assets: seq<Asset>, msg: string, n: nat): State
    requires n <= |assets|
  {
    if n == 0 then Initial
    else
      var prev := AfterFailures(assets, msg, n - 1);
      State(Counts(0, 0, n), prev.trace + [WriteCalled(assets[n - 1]), WriteError(assets[n - 1], msg)])
  }

  /** After `n` failed writes, `n` errors are counted and exactly the first `n` assets were attempted. */
  lemma {:induction false} FailuresRecorded(assets: seq<Asset>, msg: string, n: nat)
    requires n <= |assets|
    ensures var t := AfterFailures(assets, msg, n).trace;
      Tally(t) == Counts(0, 0, n) && Attempts(t) == assets[..n]
  {
    if n > 0 {
      var a := assets[n - 1];
      var prev := AfterFailures(assets, msg, n - 1).trace;
      FailuresRecorded(assets, msg, n - 1);
      CalledSnoc(prev, a);
      ErrorSnoc(prev + [WriteCalled(a)], a, msg);
      assert prev + [WriteCalled(a), WriteError(a, msg)] == prev + [WriteCalled(a)] + [WriteError(a, msg)];
      assert assets[..n] == assets[..n - 1] + [a];
    }
  }

  /**
   * When every write fails and no index is consulted, a group with more than
   * `MaxErrors` assets aborts right after its failure number `MaxErrors + 1`.
   */
  lemma {:induction false} FailingWritesAbort(write: Asset -> WriteOutcome, msg: string, assets: seq<Asset>, n: nat)
    requires forall a :: write(a) == WriteFailed(msg)
    requires MaxErrors < |assets| && n <= MaxErrors
    ensures Group(None, write, AfterFailures(assets, msg, n), assets[n..])
         == Aborted(AfterFailures(assets, msg, MaxErrors + 1))
    decreases MaxErrors - n
  {
    var st := AfterFailures(assets, msg, n);
    var next := AfterFailures(assets, msg, n + 1);
    assert assets[n..][0] == assets[n] && assets[n..][1..] == assets[n + 1..];
    assert write(assets[n]) == WriteFailed(msg);
    if n < MaxErrors {
      assert Step(None, write, st, assets[n]) == Running(next);
      FailingWritesAbort(write, msg, assets, n + 1);
    } else {
      assert Step(None, write, st, assets[n]) == Aborted(next);
    }
  }

  /** Assets 1 to `n`, all called IMG_0001.JPG, as when several folders hold that name. */
  function SameNamed(n: nat): (r: seq<Asset>)
    ensures |r| == n && forall i :: 0 <= i < n ==> r[i] == Asset(i + 1, "IMG_0001.JPG")
  {
    if n == 0 then [] else SameNamed(n - 1) + [Asset(n, "IMG_0001.JPG")]
  }

  /**
   * Seven assets whose writes all fail: the sixth failure aborts the run
   * with six errors, and the seventh asset is never attempted.
   */
  lemma SixthFailureAborts()
    ensures var write := (a: Asset) => WriteFailed("refused");
      var dest := Destination(write, None);
      var assets := SameNamed(7);
      var d := Migrate(dest, [assets], (k: nat) => false);
      && d.0 == TooManyErrors
      && Tally(d.1) == Counts(0, 0, 6)
      && Attempts(d.1) == assets[..6]
  {
    var write := (a: Asset) => WriteFailed("refused");
    var assets := SameNamed(7);
    var cancelled := (k: nat) => false;
    FailingWritesAbort(write, "refused", assets, 0);
    assert assets[0..] == assets;
    var last := AfterFailures(assets, "refused", MaxErrors + 1);
    assert Drain(None, write, cancelled, [assets], 0, Initial) == (TooManyErrors, last.trace);
    FailuresRecorded(assets, "refused", MaxErrors + 1);
  }
}
