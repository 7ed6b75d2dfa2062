/** UpdateDirectoryList's task (UpdateDirectoryList.java:51-117): two passes
    over directory streams that hand the entries to the UI thread in batches
    of 100, with cooperative cancellation. The UI thread's work is modelled
    by the sequence of batches posted to it (each becomes one
    itemList.addAll) and a flag for the posted latch count-down. */
module UpdateDirectoryList {
  import opened Wrappers
  import opened Sequences
  import opened Paths

  /** The size at which the buffer is flushed (shouldSchedule). */
  const BatchSize: nat := 100

  /** shouldSchedule (UpdateDirectoryList.java:95-97). The buffer is emptied
      after every flush, so it only ever holds 1 to 100 entries here, and the
      test fires exactly when it is full. */
  function ShouldSchedule(itemsToUpdate: seq<File>): (schedule: bool)
    ensures 0 < |itemsToUpdate| <= BatchSize ==> (schedule <==> |itemsToUpdate| == BatchSize)
  {
    |itemsToUpdate| % BatchSize == 0
  }

  /** The entries still in the buffer after the full batches of `s` were flushed. */
  function Remainder<T>(s: seq<T>): (rest: seq<T>)
    ensures |rest| < BatchSize
    decreases |s|
  {
    if |s| < BatchSize then s else Remainder(s[BatchSize..])
  }

  /** The remainder holds the last |s| % 100 entries. */
  lemma {:induction false} RemainderLength<T>(s: seq<T>)
    ensures |Remainder(s)| == |s| % BatchSize
    decreases |s|
  {
    if |s| >= BatchSize {
      RemainderLength(s[BatchSize..]);
    }
  }

  /** The full batches flushed while `s` is added entry by entry. */
  function FullBatches<T>(s: seq<T>): (batches: seq<seq<T>>)
    ensures forall i :: 0 <= i < |batches| ==> |batches[i]| == BatchSize
    decreases |s|
  {
    if |s| < BatchSize then [] else [s[..BatchSize]] + FullBatches(s[BatchSize..])
  }

  /** The full batches followed by the remainder give back every entry, in order. */
  lemma {:induction false} FullBatchesThenRemainder<T>(s: seq<T>)
    ensures Flatten(FullBatches(s)) + Remainder(s) == s
    decreases |s|
  {
    if |s| >= BatchSize {
      var tail := s[BatchSize..];
      FullBatchesThenRemainder(tail);
      var batches := FullBatches(s);
      assert batches == [s[..BatchSize]] + FullBatches(tail);
      assert batches[0] == s[..BatchSize] && batches[1..] == FullBatches(tail);
      assert Flatten(batches) == s[..BatchSize] + Flatten(FullBatches(tail));
      assert s == s[..BatchSize] + tail;
    }
  }

  /** Adding one entry either completes the current buffer into a new full
      batch and empties it, or just grows the buffer. */
  lemma {:induction false} BatchesSnoc<T>(s: seq<T>, x: T)
    ensures |Remainder(s)| + 1 == BatchSize ==>
      FullBatches(s + [x]) == FullBatches(s) + [Remainder(s) + [x]] && Remainder(s + [x]) == []
    ensures |Remainder(s)| + 1 < BatchSize ==>
      FullBatches(s + [x]) == FullBatches(s) && Remainder(s + [x]) == Remainder(s) + [x]
    decreases |s|
  {
    var t := s + [x];
    if |s| < BatchSize {
      if |s| + 1 == BatchSize {
        assert t[..BatchSize] == t && t[BatchSize..] == [];
      }
    } else {
      assert t[..BatchSize] == s[..BatchSize];
      assert t[BatchSize..] == s[BatchSize..] + [x];
      BatchesSnoc(s[BatchSize..], x);
    }
  }

  /** Whether the check numbered `k` (0-based, over the whole task) of
      isCancelled() answers true. Cancellation is requested once, from the
      check numbered `cancelAt` on, and never withdrawn. */
  predicate CancelledAt(cancelAt: Option<nat>, k: nat) {
    cancelAt.Some? && cancelAt.value <= k
  }

  /** For a pass of `n` entries whose first check is numbered `start`: the
      index of the entry before which cancellation is first seen, if any.
      Since cancellation stays once requested, the first true answer is the
      one whose predecessor (if any) answered false. */
  function PassCut(cancelAt: Option<nat>, start: nat, n: nat): (cut: Option<nat>)
    ensures cut.Some? ==> cut.value < n && CancelledAt(cancelAt, start + cut.value)
    ensures cut.Some? && cut.value > 0 ==> !CancelledAt(cancelAt, start + cut.value - 1)
    ensures cut.None? ==> n == 0 || !CancelledAt(cancelAt, start + n - 1)
  {
    if n > 0 && cancelAt.Some? && cancelAt.value < start + n then
      Some(if cancelAt.value <= start then 0 else cancelAt.value - start)
    else None
  }

  /** Whether update keeps an entry: every entry, or only directories. */
  predicate Wanted(dirOnly: bool, entry: File) {
    !dirOnly || entry.meta.isDir
  }

  /** The entries a pass keeps, in stream order. */
  function Kept(stream: seq<File>, dirOnly: bool): (kept: seq<File>)
    ensures !dirOnly ==> kept == stream
    ensures forall e :: e in kept <==> e in stream && (!dirOnly || e.meta.isDir)
  {
    var wanted := e => Wanted(dirOnly, e);
    if !dirOnly then FilterKeepsAll(stream, wanted); Filter(stream, wanted)
    else Filter(stream, wanted)
  }

  lemma KeptSnoc(stream: seq<File>, i: nat, dirOnly: bool)
    requires i < |stream|
    ensures Kept(stream[..i + 1], dirOnly) ==
      Kept(stream[..i], dirOnly) + (if Wanted(dirOnly, stream[i]) then [stream[i]] else [])
  {
    var wanted := e => Wanted(dirOnly, e);
    assert stream[..i + 1] == stream[..i] + [stream[i]];
    FilterAppend(stream[..i], [stream[i]], wanted);
    assert Filter([stream[i]], wanted) == (if wanted(stream[i]) then [stream[i]] else []) + Filter([], wanted);
  }

  /** The batches one run of update posts: for a completed pass the full
      batches and then the final flush of what is left (possibly nothing);
      for a pass cancelled before entry k only the full batches of the
      entries before k, the partial buffer being dropped. */
  function PassBatches(stream: seq<File>, dirOnly: bool, cut: Option<nat>): (batches: seq<seq<File>>)
    requires cut.Some? ==> cut.value <= |stream|
    ensures cut.None? ==> |batches| > 0
    ensures forall i :: 0 <= i < |batches| ==> |batches[i]| <= BatchSize
  {
    match cut
    case None =>
      var kept := Kept(stream, dirOnly);
      FullBatches(kept) + [Remainder(kept)]
    case Some(k) => FullBatches(Kept(stream[..k], dirOnly))
  }

  /** The batches the whole of call posts: the filtered pass over
      `dirStream`, then, unless cancellation is seen after it, the
      directories-only pass over `unfilteredDirStream`. */
  function CallBatches(dirStream: seq<File>, unfilteredDirStream: seq<File>, cancelAt: Option<nat>): (batches: seq<seq<File>>)
    ensures forall i :: 0 <= i < |batches| ==> |batches[i]| <= BatchSize
    ensures !CancelledAt(cancelAt, |dirStream| + |unfilteredDirStream|) ==> |batches| >= 2
  {
    var first := PassBatches(dirStream, false, PassCut(cancelAt, 0, |dirStream|));
    if CancelledAt(cancelAt, |dirStream|) then first
    else first + PassBatches(unfilteredDirStream, true, PassCut(cancelAt, |dirStream| + 1, |unfilteredDirStream|))
  }

  /** Whether call posts the latch count-down: exactly when cancellation is
      not seen by the check that follows the first pass. */
  function CountDownPosted(dirStream: seq<File>, cancelAt: Option<nat>): (posted: bool)
    ensures cancelAt.None? ==> posted
    ensures cancelAt.Some? && cancelAt.value <= |dirStream| ==> !posted
    ensures cancelAt.Some? && cancelAt.value > |dirStream| ==> posted
  {
    !CancelledAt(cancelAt, |dirStream|)
  }

  /** Every batch of a pass has exactly 100 entries except the final flush of
      a completed pass, which has the 0 to 99 left over and is empty exactly
      when the number of kept entries is a multiple of 100. */
  lemma PassBatchSizes(stream: seq<File>, dirOnly: bool, cut: Option<nat>)
    requires cut.Some? ==> cut.value <= |stream|
    ensures var batches := PassBatches(stream, dirOnly, cut);
      (cut.Some? ==> forall i :: 0 <= i < |batches| ==> |batches[i]| == BatchSize) &&
      (cut.None? ==>
        |batches| > 0 &&
        (forall i :: 0 <= i < |batches| - 1 ==> |batches[i]| == BatchSize) &&
        |batches[|batches| - 1]| < BatchSize &&
        (batches[|batches| - 1] == [] <==> |Kept(stream, dirOnly)| % BatchSize == 0))
  {
    if cut.None? {
      RemainderLength(Kept(stream, dirOnly));
    }
  }

  /** Batches of exactly 100 entries hold a multiple of 100 entries in all. */
  lemma {:induction false} FlattenFullLength<T>(batches: seq<seq<T>>)
    requires forall i :: 0 <= i < |batches| ==> |batches[i]| == BatchSize
    ensures |Flatten(batches)| == BatchSize * |batches|
    ensures |Flatten(batches)| % BatchSize == 0
    decreases |batches|
  {
    if batches != [] {
      FlattenFullLength(batches[1..]);
      var m := |Flatten(batches[1..])|;
      assert |Flatten(batches)| == BatchSize + m;
      assert (BatchSize + m) % BatchSize == m % BatchSize;
    }
  }

  /** What one pass hands over: a completed pass delivers every kept entry
      in stream order; a cancelled pass delivers a prefix of them whose
      length is a multiple of 100, dropping the partial buffer. */
  lemma PassContents(stream: seq<File>, dirOnly: bool, cut: Option<nat>)
    requires cut.Some? ==> cut.value <= |stream|
    ensures cut.None? ==> Flatten(PassBatches(stream, dirOnly, cut)) == Kept(stream, dirOnly)
    ensures cut.Some? ==>
      var delivered := Flatten(PassBatches(stream, dirOnly, cut));
      var kept := Kept(stream[..cut.value], dirOnly);
      |delivered| % BatchSize == 0 && |delivered| <= |kept| && delivered == kept[..|delivered|] &&
      |kept| - |delivered| < BatchSize
  {
    match cut
    case None =>
      var kept := Kept(stream, dirOnly);
      FullBatchesThenRemainder(kept);
      FlattenAppend(FullBatches(kept), [Remainder(kept)]);
      assert Flatten([Remainder(kept)]) == Remainder(kept) + Flatten([]);
    case Some(k) =>
      var kept := Kept(stream[..k], dirOnly);
      FullBatchesThenRemainder(kept);
      FlattenFullLength(FullBatches(kept));
      var delivered := Flatten(FullBatches(kept));
      assert kept[..|delivered|] == delivered;
  }

  /** An uncancelled call appends to itemList exactly the entries of the
      filtered stream followed by the directories of the unfiltered stream,
      in stream order and without deduplication, and posts the count-down. */
  lemma UncancelledCall(dirStream: seq<File>, unfilteredDirStream: seq<File>, cancelAt: Option<nat>)
    requires !CancelledAt(cancelAt, |dirStream| + |unfilteredDirStream|)
    ensures Flatten(CallBatches(dirStream, unfilteredDirStream, cancelAt)) ==
      dirStream + Kept(unfilteredDirStream, true)
    ensures forall e :: e in Flatten(CallBatches(dirStream, unfilteredDirStream, cancelAt)) <==>
      e in dirStream || (e in unfilteredDirStream && e.meta.isDir)
    ensures CountDownPosted(dirStream, cancelAt)
  {
    var cut1 := PassCut(cancelAt, 0, |dirStream|);
    var cut2 := PassCut(cancelAt, |dirStream| + 1, |unfilteredDirStream|);
    assert cut1.None? && cut2.None?;
    var first := PassBatches(dirStream, false, None);
    var second := PassBatches(unfilteredDirStream, true, None);
    assert CallBatches(dirStream, unfilteredDirStream, cancelAt) == first + second;
    PassContents(dirStream, false, None);
    PassContents(unfilteredDirStream, true, None);
    FlattenAppend(first, second);
    assert Flatten(first + second) == dirStream + Kept(unfilteredDirStream, true);
  }

  /** Cancellation seen during the first pass: no count-down is posted and
      what was delivered is a prefix of the filtered stream, taken from the
      entries before the cancelling check, whose length is a multiple of 100. */
  lemma CancelledInFirstPass(dirStream: seq<File>, unfilteredDirStream: seq<File>, cancelAt: Option<nat>)
    requires cancelAt.Some? && cancelAt.value < |dirStream|
    ensures !CountDownPosted(dirStream, cancelAt)
    ensures var delivered := Flatten(CallBatches(dirStream, unfilteredDirStream, cancelAt));
      |delivered| % BatchSize == 0 && |delivered| <= cancelAt.value && delivered == dirStream[..|delivered|]
  {
    var k := cancelAt.value;
    assert PassCut(cancelAt, 0, |dirStream|) == Some(k);
    PassContents(dirStream, false, Some(k));
    var delivered := Flatten(CallBatches(dirStream, unfilteredDirStream, cancelAt));
    assert Kept(dirStream[..k], false) == dirStream[..k];
    assert dirStream[..k][..|delivered|] == dirStream[..|delivered|];
  }

  /** Cancellation first seen by the check between the two passes: the
      whole filtered stream was delivered, the second pass is skipped and no
      count-down is posted. */
  lemma CancelledBetweenPasses(dirStream: seq<File>, unfilteredDirStream: seq<File>)
    ensures !CountDownPosted(dirStream, Some(|dirStream|))
    ensures Flatten(CallBatches(dirStream, unfilteredDirStream, Some(|dirStream|))) == dirStream
  {
    PassContents(dirStream, false, None);
  }

  /** Cancellation seen during the second pass still posts the count-down;
      everything of the first pass is delivered, then a prefix of the
      directories of the unfiltered stream whose length is a multiple of 100. */
  lemma CancelledInSecondPass(dirStream: seq<File>, unfilteredDirStream: seq<File>, cancelAt: Option<nat>)
    requires cancelAt.Some? && |dirStream| < cancelAt.value <= |dirStream| + |unfilteredDirStream|
    ensures CountDownPosted(dirStream, cancelAt)
    ensures var delivered := Flatten(CallBatches(dirStream, unfilteredDirStream, cancelAt));
      var dirs := Kept(unfilteredDirStream, true);
      |dirStream| <= |delivered| && delivered[..|dirStream|] == dirStream &&
      (|delivered| - |dirStream|) % BatchSize == 0 &&
      |delivered| - |dirStream| <= |dirs| && delivered[|dirStream|..] == dirs[..|delivered| - |dirStream|]
  {
    var cut2 := PassCut(cancelAt, |dirStream| + 1, |unfilteredDirStream|);
    var k := cut2.value;
    var firstBatches := PassBatches(dirStream, false, None);
    var secondBatches := PassBatches(unfilteredDirStream, true, cut2);
    assert CallBatches(dirStream, unfilteredDirStream, cancelAt) == firstBatches + secondBatches;
    PassContents(dirStream, false, None);
    PassContents(unfilteredDirStream, true, cut2);
    FlattenAppend(firstBatches, secondBatches);
    var second := Flatten(secondBatches);
    var delivered := dirStream + second;
    assert delivered[..|dirStream|] == dirStream && delivered[|dirStream|..] == second;
    var before := Kept(unfilteredDirStream[..k], true);
    KeptPrefix(unfilteredDirStream, k, true);
    var dirs := Kept(unfilteredDirStream, true);
    assert second == before[..|second|] == dirs[..|before|][..|second|] == dirs[..|second|];
  }

  /** The entries kept from a prefix of a stream are a prefix of those kept from all of it. */
  lemma KeptPrefix(stream: seq<File>, k: nat, dirOnly: bool)
    requires k <= |stream|
    ensures var before := Kept(stream[..k], dirOnly);
      |before| <= |Kept(stream, dirOnly)| && Kept(stream, dirOnly)[..|before|] == before
  {
    assert stream == stream[..k] + stream[k..];
    FilterAppend(stream[..k], stream[k..], e => Wanted(dirOnly, e));
  }

  /** Two empty streams still post one empty batch per pass. */
  lemma EmptyStreamsPostEmptyBatches()
    ensures CallBatches([], [], None) == [[], []]
  {
    assert Kept([], false) == [] && Kept([], true) == [];
  }

  /** Disjoint duplicate-free streams give a duplicate-free itemList
      addition; UpdateListTask itself never removes a duplicate. */
  lemma UncancelledCallNoDuplicates(dirStream: seq<File>, unfilteredDirStream: seq<File>)
    requires NoDuplicates(dirStream) && NoDuplicates(unfilteredDirStream)
    requires forall e :: e in dirStream ==> e !in unfilteredDirStream
    ensures NoDuplicates(Flatten(CallBatches(dirStream, unfilteredDirStream, None)))
  {
    UncancelledCall(dirStream, unfilteredDirStream, None);
    var dirs := Kept(unfilteredDirStream, true);
    FilterNoDuplicates(unfilteredDirStream, e => Wanted(true, e));
    assert dirs == Filter(unfilteredDirStream, e => Wanted(true, e));
    AppendNoDuplicates(dirStream, dirs);
  }

  /** A directory in both streams is added twice. */
  lemma UncancelledCallKeepsDuplicates(dirStream: seq<File>, unfilteredDirStream: seq<File>, e: File)
    requires e in dirStream && e in unfilteredDirStream && e.meta.isDir
    ensures var added := Flatten(CallBatches(dirStream, unfilteredDirStream, None));
      exists i, j :: 0 <= i < j < |added| && added[i] == e && added[j] == e
  {
    UncancelledCall(dirStream, unfilteredDirStream, None);
    var dirs := Kept(unfilteredDirStream, true);
    var added := dirStream + dirs;
    var i :| 0 <= i < |dirStream| && dirStream[i] == e;
    assert e in dirs;
    var j :| 0 <= j < |dirs| && dirs[j] == e;
    assert added[i] == e && added[|dirStream| + j] == e;
  }

  /** UpdateListTask: one run of the listing service over its two streams. */
  class UpdateListTask {
    const dirStream: seq<File>
    const unfilteredDirStream: seq<File>
    /** The number of the first isCancelled() check that answers true, if any. */
    const cancelAt: Option<nat>
    /** isCancelled() checks made so far. */
    var checks: nat
    /** The batches posted with Platform.runLater, in order; the UI thread
        applies each as itemList.addAll. */
    var batches: seq<seq<File>>
    /** Whether Platform.runLater(latch::countDown) was posted. */
    var countDownPosted: bool

    constructor (dirStream: seq<File>, unfilteredDirStream: seq<File>, cancelAt: Option<nat>)
      ensures this.dirStream == dirStream && this.unfilteredDirStream == unfilteredDirStream
      ensures this.cancelAt == cancelAt
      ensures checks == 0 && batches == [] && !countDownPosted
    {
      this.dirStream := dirStream;
      this.unfilteredDirStream := unfilteredDirStream;
      this.cancelAt := cancelAt;
      checks := 0;
      batches := [];
      countDownPosted := false;
    }

    /** Task.isCancelled(), as the answer to the next numbered check. */
    method IsCancelled() returns (cancelled: bool)
      modifies this`checks
      ensures cancelled == CancelledAt(cancelAt, old(checks))
      ensures checks == old(checks) + 1
    {
      cancelled := cancelAt.Some? && cancelAt.value <= checks;
      checks := checks + 1;
    }

    /** scheduleJavaFx (UpdateDirectoryList.java:99-104): posts a copy of the
        buffer, so clearing the buffer afterwards leaves the batch intact. */
    method ScheduleJavaFx(itemsToUpdate: seq<File>)
      modifies this`batches
      ensures batches == old(batches) + [itemsToUpdate]
    {
      var temp := itemsToUpdate;
      batches := batches + [temp];
    }

    /** update (UpdateDirectoryList.java:68-93): check for cancellation
        before each entry, buffer the kept ones, flush on every 100th, and
        flush what is left at the end unless cancelled. */
    method Update(stream: seq<File>, dirOnly: bool)
      modifies this`checks, this`batches
      ensures var cut := PassCut(cancelAt, old(checks), |stream|);
        checks == old(checks) + (if cut.None? then |stream| else cut.value + 1) &&
        batches == old(batches) + PassBatches(stream, dirOnly, cut)
    {
      var itemsToAdd: seq<File> := [];
      var i := 0;
      while i < |stream|
        invariant 0 <= i <= |stream|
        invariant checks == old(checks) + i
        invariant i > 0 ==> !CancelledAt(cancelAt, old(checks) + i - 1)
        invariant batches == old(batches) + FullBatches(Kept(stream[..i], dirOnly))
        invariant itemsToAdd == Remainder(Kept(stream[..i], dirOnly))
      {
        var cancelled := IsCancelled();
        if cancelled {
          assert PassCut(cancelAt, old(checks), |stream|) == Some(i);
          return;
        }
        KeptSnoc(stream, i, dirOnly);
        ghost var before := Kept(stream[..i], dirOnly);
        var path := stream[i];
        if !dirOnly || path.meta.isDir {
          BatchesSnoc(before, path);
          assert Kept(stream[..i + 1], dirOnly) == before + [path];
          itemsToAdd := itemsToAdd + [path];
          if ShouldSchedule(itemsToAdd) {
            ScheduleJavaFx(itemsToAdd);
            itemsToAdd := [];
          }
        } else {
          assert Kept(stream[..i + 1], dirOnly) == before;
        }
        i := i + 1;
      }
      assert stream[..i] == stream;
      assert PassCut(cancelAt, old(checks), |stream|) == None;
      ScheduleJavaFx(itemsToAdd);
    }

    /** call (UpdateDirectoryList.java:53-66): the filtered pass, a
        cancellation check, the directories-only pass, then the count-down
        posted to the UI thread (the await on it is not modelled). */
    method Call()
      requires checks == 0 && batches == [] && !countDownPosted
      modifies this`checks, this`batches, this`countDownPosted
      ensures batches == CallBatches(dirStream, unfilteredDirStream, cancelAt)
      ensures countDownPosted == CountDownPosted(dirStream, cancelAt)
    {
      Update(dirStream, false);
      var cancelled := IsCancelled();
      if cancelled {
        return;
      }
      Update(unfilteredDirStream, true);
      countDownPosted := true;
    }
  }
}
