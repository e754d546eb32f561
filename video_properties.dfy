/**
 * What a video run does, proved about the functions of module `Video` that the
 * `VideoQueue` methods are proved to follow.
 */
module VideoProperties {
  import opened Wrappers
  import opened Messaging
  import opened Log
  import opened Video

  /** The videos of the items `i .. k-1`, in queue order. */
  function VideosBetween(q: seq<QueueItem>, env: QueueEnv, i: nat, k: nat): seq<GeneratedVideo>
    requires k <= |q|
    decreases k - i
  {
    if i >= k then [] else ItemVideos(q[i], env.items(i)) + VideosBetween(q, env, i + 1, k)
  }

  /** The file names of the items `i .. k-1`. */
  function ItemNames(q: seq<QueueItem>, i: nat, k: nat): set<string>
    requires k <= |q|
  {
    set m | i <= m < k :: q[m].filename
  }

  /** No two queue items share a file name. */
  predicate DistinctFilenames(q: seq<QueueItem>) {
    forall a, b :: 0 <= a < b < |q| ==> q[a].filename != q[b].filename
  }

  /** The index at which the item loop started at `i` leaves: `|queue|` when it ran to the end. */
  function StopIndex(j: VideoJob, env: QueueEnv, i: nat): (k: nat)
    requires i <= |j.queue|
    ensures i <= k <= |j.queue|
    decreases |j.queue| - i
  {
    if i == |j.queue| || !j.isProcessing || j.isPaused then i
    else StopIndex(StepItem(j, i, env.items(i)), env, i + 1)
  }

  // ---------------------------------------------------------------------------
  // Control commands.
  // ---------------------------------------------------------------------------

  /** The flags after a run of commands depend only on the flags before. */
  lemma {:induction false} ApplyControlsFlags(a: VideoJob, b: VideoJob, cs: seq<Control>)
    requires a.isProcessing == b.isProcessing && a.isPaused == b.isPaused
    ensures ApplyControls(a, cs).isProcessing == ApplyControls(b, cs).isProcessing
    ensures ApplyControls(a, cs).isPaused == ApplyControls(b, cs).isPaused
  {
    if cs != [] {
      ApplyControlsFlags(a, b, cs[..|cs| - 1]);
    }
  }

  /** No command restarts a stopped run. */
  lemma {:induction false} ApplyControlsNeverStarts(j: VideoJob, cs: seq<Control>)
    requires !j.isProcessing
    ensures !ApplyControls(j, cs).isProcessing
  {
    if cs != [] {
      ApplyControlsNeverStarts(j, cs[..|cs| - 1]);
    }
  }

  /**
   * Pause sets only `isPaused`, and twice is the same as once; stop clears both flags and
   * nothing else; resume after a stop does not restart the loop.
   */
  lemma ControlTransitions(j: VideoJob, env: QueueEnv)
    ensures PauseJob(j).(isPaused := j.isPaused) == j && PauseJob(j).isPaused
    ensures PauseJob(PauseJob(j)) == PauseJob(j)
    ensures StopJob(j).(isProcessing := j.isProcessing, isPaused := j.isPaused) == j
    ensures !StopJob(j).isProcessing && !StopJob(j).isPaused
    ensures RunQueue(ResumeJob(StopJob(j)), env) == StopJob(j)
  {
  }

  /** `startProcessing` resets the run, whatever the record held, and applies the defaults. */
  lemma StartResets(msg: StartMessage)
    ensures var s := StartJob(msg);
      && s.queue == msg.queue && s.isProcessing && !s.isPaused
      && s.currentIndex == 0 && s.videoCounter == 0 && s.log == [] && s.generatedVideos == []
      && s.currentTabId == msg.tabId
      && s.aspectRatio == (if msg.aspectRatio.Some? && msg.aspectRatio.value != [] then msg.aspectRatio.value else "16:9")
      && s.downloadFolder == (if msg.downloadFolder.Some? && msg.downloadFolder.value != [] then msg.downloadFolder.value else "grok-videos")
  {
  }

  // ---------------------------------------------------------------------------
  // One item.
  // ---------------------------------------------------------------------------

  /**
   * Processing item `i` sets `currentIndex = i` and `videoCounter = i + 1`; its 'processing'
   * entry is overwritten by the final one ('completed', or 'failed' with the error), so the
   * log is as if only the final entry had been written; exactly one video is appended when
   * the item succeeded and none otherwise; only the commands handled meanwhile change the flags.
   */
  lemma StepItemOutcome(j: VideoJob, i: nat, it: ItemEnv)
    requires i < |j.queue|
    ensures var r := StepItem(j, i, it);
      var item := j.queue[i];
      var e := ItemEntry(item, it);
      && r.currentIndex == i && r.videoCounter == i + 1
      && r.log == Upsert(j.log, item.filename, e.status, e.error)
      && r.generatedVideos == j.generatedVideos + ItemVideos(item, it)
      && r.isProcessing == ApplyControls(j, it.during).isProcessing
      && r.isPaused == ApplyControls(j, it.during).isPaused
  {
    var item := j.queue[i];
    var e := ItemEntry(item, it);
    var j1 := j.(currentIndex := i, videoCounter := i + 1,
                 log := Upsert(j.log, item.filename, e.status, e.error),
                 generatedVideos := j.generatedVideos + ItemVideos(item, it));
    ApplyControlsFlags(j1, j, it.during);
  }

  /** The item's final entry is found under its file name, and the other entries are as they were. */
  lemma StepItemLog(j: VideoJob, i: nat, it: ItemEnv)
    requires i < |j.queue|
    ensures var r := StepItem(j, i, it);
      var item := j.queue[i];
      && Lookup(r.log, item.filename) == Some(ItemEntry(item, it))
      && Labels(r.log) == Labels(j.log) + {item.filename}
      && (forall other :: other != item.filename ==> Lookup(r.log, other) == Lookup(j.log, other))
      && (UniqueLabels(j.log) ==> UniqueLabels(r.log))
      && (NoneProcessing(j.log) ==> NoneProcessing(r.log))
  {
    var e := ItemEntry(j.queue[i], it);
    StepItemOutcome(j, i, it);
    UpsertFacts(j.log, j.queue[i].filename, e.status, e.error);
  }

  lemma ItemNamesStep(q: seq<QueueItem>, i: nat, k: nat)
    requires i < k <= |q|
    ensures ItemNames(q, i, k) == {q[i].filename} + ItemNames(q, i + 1, k)
  {
  }

  // ---------------------------------------------------------------------------
  // The item loop.
  // ---------------------------------------------------------------------------

  /**
   * The item loop started at `i` (within the queue) stops at `k = StopIndex`; then the
   * queue, settings and tab are unchanged; the cursor lies in `[0, |queue|]` and the run is
   * no longer active; after a full pass `isProcessing` is false and the cursor 0, otherwise
   * the cursor is `k`.
   */
  lemma {:induction false} RunFromEnd(j: VideoJob, env: QueueEnv, i: nat)
    requires i <= |j.queue|
    ensures var r := RunFrom(j, env, i);
      var k := StopIndex(j, env, i);
      && SameConfig(j, r)
      && r.currentIndex <= |j.queue|
      && !(r.isProcessing && !r.isPaused)
      && (k == |j.queue| ==> !r.isProcessing && r.currentIndex == 0)
      && (k < |j.queue| ==> r.currentIndex == k)
    decreases |j.queue| - i
  {
    if !(i == |j.queue| || !j.isProcessing || j.isPaused) {
      RunFromEnd(StepItem(j, i, env.items(i)), env, i + 1);
    }
  }

  /** `videoCounter` is the number of the last item processed, i.e. `k` when any was. */
  lemma {:induction false} RunFromCounter(j: VideoJob, env: QueueEnv, i: nat)
    requires i <= |j.queue|
    ensures RunFrom(j, env, i).videoCounter
      == if StopIndex(j, env, i) == i then j.videoCounter else StopIndex(j, env, i)
    decreases |j.queue| - i
  {
    if !(i == |j.queue| || !j.isProcessing || j.isPaused) {
      RunFromCounter(StepItem(j, i, env.items(i)), env, i + 1);
    }
  }

  /** The videos the loop gains are exactly those of the items that succeeded, in queue order. */
  lemma {:induction false} RunFromVideos(j: VideoJob, env: QueueEnv, i: nat)
    requires i <= |j.queue|
    ensures RunFrom(j, env, i).generatedVideos
      == j.generatedVideos + VideosBetween(j.queue, env, i, StopIndex(j, env, i))
    decreases |j.queue| - i
  {
    if !(i == |j.queue| || !j.isProcessing || j.isPaused) {
      StepItemOutcome(j, i, env.items(i));
      RunFromVideos(StepItem(j, i, env.items(i)), env, i + 1);
    }
  }

  /** The final log entries of the items `i .. k-1`, in queue order. */
  function ItemEntries(q: seq<QueueItem>, env: QueueEnv, i: nat, k: nat): seq<LogEntry>
    requires k <= |q|
    decreases k - i
  {
    if i >= k then [] else [ItemEntry(q[i], env.items(i))] + ItemEntries(q, env, i + 1, k)
  }

  /** The loop's log is the old log with the final entry of every processed item upserted, in order. */
  lemma {:induction false} RunFromLog(j: VideoJob, env: QueueEnv, i: nat)
    requires i <= |j.queue|
    ensures RunFrom(j, env, i).log == UpsertAll(j.log, ItemEntries(j.queue, env, i, StopIndex(j, env, i)))
    decreases |j.queue| - i
  {
    if !(i == |j.queue| || !j.isProcessing || j.isPaused) {
      var e := ItemEntry(j.queue[i], env.items(i));
      StepItemOutcome(j, i, env.items(i));
      RunFromLog(StepItem(j, i, env.items(i)), env, i + 1);
      UpsertAllCons(j.log, e, ItemEntries(j.queue, env, i + 1, StopIndex(j, env, i)));
    }
  }

  /** The entries of the items `i .. k-1` carry their file names, and none is 'processing'. */
  lemma ItemEntriesFacts(q: seq<QueueItem>, env: QueueEnv, i: nat, k: nat)
    requires i <= k <= |q|
    ensures Labels(ItemEntries(q, env, i, k)) == ItemNames(q, i, k)
    ensures NoneProcessing(ItemEntries(q, env, i, k))
  {
    ItemEntriesLabels(q, env, i, k);
    ItemEntriesSettled(q, env, i, k);
  }

  /** An item's final entry carries its file name and is 'completed' or 'failed'. */
  lemma ItemEntryShape(item: QueueItem, it: ItemEnv)
    ensures ItemEntry(item, it).name == item.filename
    ensures ItemEntry(item, it).status in {Completed, Failed}
  {
  }

  lemma {:induction false} ItemEntriesLabels(q: seq<QueueItem>, env: QueueEnv, i: nat, k: nat)
    requires i <= k <= |q|
    ensures Labels(ItemEntries(q, env, i, k)) == ItemNames(q, i, k)
    decreases k - i
  {
    var es := ItemEntries(q, env, i, k);
    if i == k {
      assert ItemNames(q, i, i) == {};
      assert es == [];
    } else {
      var rest := ItemEntries(q, env, i + 1, k);
      ItemEntriesLabels(q, env, i + 1, k);
      ItemEntryShape(q[i], env.items(i));
      assert es == [ItemEntry(q[i], env.items(i))] + rest;
      assert es[1..] == rest;
      LabelsCons(es);
      ItemNamesStep(q, i, k);
    }
  }

  lemma {:induction false} ItemEntriesSettled(q: seq<QueueItem>, env: QueueEnv, i: nat, k: nat)
    requires i <= k <= |q|
    ensures NoneProcessing(ItemEntries(q, env, i, k))
    decreases k - i
  {
    if i < k {
      ItemEntriesSettled(q, env, i + 1, k);
      ItemEntryShape(q[i], env.items(i));
      NoneProcessingCons(ItemEntry(q[i], env.items(i)), ItemEntries(q, env, i + 1, k));
    }
  }

  lemma {:induction false} VideosBetweenLength(q: seq<QueueItem>, env: QueueEnv, i: nat, k: nat)
    requires i <= k <= |q|
    ensures |VideosBetween(q, env, i, k)| <= k - i
    decreases k - i
  {
    if i < k {
      VideosBetweenLength(q, env, i + 1, k);
    }
  }

  lemma {:induction false} ItemNamesCard(q: seq<QueueItem>, i: nat, k: nat)
    requires i <= k <= |q|
    ensures |ItemNames(q, i, k)| <= k - i
    decreases k - i
  {
    if i == k {
      assert ItemNames(q, i, k) == {};
    } else {
      ItemNamesStep(q, i, k);
      ItemNamesCard(q, i + 1, k);
    }
  }

  // ---------------------------------------------------------------------------
  // A whole run.
  // ---------------------------------------------------------------------------

  /** The record after the setup step of a started run. */
  function StartedSetup(msg: StartMessage, env: QueueEnv): VideoJob {
    SetupJob(StartJob(msg), env.setup)
  }

  /** Where a started run's item loop leaves off. */
  function StartedStop(msg: StartMessage, env: QueueEnv): nat {
    StopIndex(StartedSetup(msg, env), env, 0)
  }

  /** After the setup step: the queue is in place, no videos yet, and at most the setup failure logged. */
  lemma StartedSetupFacts(msg: StartMessage, env: QueueEnv)
    ensures var j := StartedSetup(msg, env);
      && j.queue == msg.queue && j.generatedVideos == [] && j.currentIndex == 0
      && UniqueLabels(j.log) && NoneProcessing(j.log)
      && Labels(j.log) <= {SetupLabel(msg.queue)}
  {
    var s := StartJob(msg);
    match SetupError(env.setup)
    case Some(m) =>
      assert Upsert([], SetupLabel(msg.queue), Failed, Some(m)) == [LogEntry(SetupLabel(msg.queue), Failed, Some(m))];
    case None =>
  }

  /**
   * A started run (with a tab to talk to) ends suspended or finished, never active; its
   * cursor lies within the queue; its videos are exactly those of the items that succeeded,
   * in queue order, so there are at most as many as items; its log holds one entry per
   * label, none left 'processing', labelled by item file names or the setup label, so it
   * has at most one entry per item when the first item has a name.
   */
  lemma StartedRun(msg: StartMessage, env: QueueEnv)
    requires HasTab(msg.tabId)
    ensures var r := RunQueue(StartJob(msg), env);
      var q := msg.queue;
      && r.queue == q
      && !(r.isProcessing && !r.isPaused)
      && r.currentIndex <= |q|
      && r.generatedVideos == VideosBetween(q, env, 0, StartedStop(msg, env))
      && |r.generatedVideos| <= |q|
      && UniqueLabels(r.log) && NoneProcessing(r.log)
      && Labels(r.log) <= ItemNames(q, 0, |q|) + {SetupLabel(q)}
      && |r.log| <= |q| + 1
      && (|q| > 0 && q[0].filename != [] ==> |r.log| <= |q|)
  {
    var q := msg.queue;
    var j := StartedSetup(msg, env);
    var k := StartedStop(msg, env);
    StartedSetupFacts(msg, env);
    assert RunQueue(StartJob(msg), env) == RunFrom(j, env, 0);
    var r := RunFrom(j, env, 0);
    RunFromEnd(j, env, 0);
    RunFromVideos(j, env, 0);
    VideosBetweenLength(q, env, 0, k);
    RunFromLog(j, env, 0);
    var es := ItemEntries(q, env, 0, k);
    ItemEntriesFacts(q, env, 0, k);
    UpsertAllLabels(j.log, es);
    UpsertAllUnique(j.log, es);
    UpsertAllNoneProcessing(j.log, es);
    var names := ItemNames(q, 0, |q|);
    assert ItemNames(q, 0, k) <= names;
    ItemNamesCard(q, 0, |q|);
    LogBound(r.log, names + {SetupLabel(q)});
    if |q| > 0 && q[0].filename != [] {
      assert SetupLabel(q) in names;
      assert names + {SetupLabel(q)} == names;
    }
  }

  // ---------------------------------------------------------------------------
  // Pause, resume and stop at item boundaries.
  // ---------------------------------------------------------------------------

  /** No pause or stop command arrives while the items `i .. n-1` are in flight. */
  predicate NoControlsBetween(env: QueueEnv, i: nat, n: nat)
    decreases n - i
  {
    i >= n || (env.items(i).during == [] && NoControlsBetween(env, i + 1, n))
  }

  /** The two environments give the items `i .. n-1` the same outcomes. */
  predicate AgreeBetween(e1: QueueEnv, e2: QueueEnv, i: nat, n: nat)
    decreases n - i
  {
    i >= n || (e1.items(i) == e2.items(i) && AgreeBetween(e1, e2, i + 1, n))
  }

  /** The same outcomes with the commands handled during item `n` removed. */
  function WithoutControlsAt(env: QueueEnv, n: nat): QueueEnv {
    env.(items := (m: nat) => if m == n then env.items(m).(during := []) else env.items(m))
  }

  lemma {:induction false} WithoutControlsAgree(env: QueueEnv, n: nat, a: nat, b: nat)
    requires b <= n || n < a
    ensures AgreeBetween(env, WithoutControlsAt(env, n), a, b)
    decreases b - a
  {
    if a < b {
      WithoutControlsAgree(env, n, a + 1, b);
    }
  }

  lemma {:induction false} AgreeNoControls(e1: QueueEnv, e2: QueueEnv, i: nat, n: nat)
    requires NoControlsBetween(e1, i, n) && AgreeBetween(e1, e2, i, n)
    ensures NoControlsBetween(e2, i, n)
    decreases n - i
  {
    if i < n {
      AgreeNoControls(e1, e2, i + 1, n);
    }
  }

  /** The loop from `i` only looks at the outcomes of items `i` onwards. */
  lemma {:induction false} RunFromAgree(j: VideoJob, e1: QueueEnv, e2: QueueEnv, i: nat)
    requires AgreeBetween(e1, e2, i, |j.queue|)
    ensures RunFrom(j, e1, i) == RunFrom(j, e2, i)
    decreases |j.queue| - i
  {
    if !(i >= |j.queue| || !j.isProcessing || j.isPaused) {
      RunFromAgree(StepItem(j, i, e1.items(i)), e1, e2, i + 1);
    }
  }

  /** The saved cursor does not matter to the loop: it is overwritten before it is read. */
  lemma RunFromIgnoresCursor(j: VideoJob, env: QueueEnv, i: nat, c: nat)
    ensures RunFrom(j.(currentIndex := c), env, i) == RunFrom(j, env, i)
  {
    if !(i >= |j.queue| || !j.isProcessing || j.isPaused) {
      assert StepItem(j.(currentIndex := c), i, env.items(i)) == StepItem(j, i, env.items(i));
    }
  }

  /** An item during which no command arrived leaves the run's flags as they were. */
  lemma QuietStep(j: VideoJob, i: nat, it: ItemEnv)
    requires i < |j.queue| && it.during == []
    ensures StepItem(j, i, it).isProcessing == j.isProcessing
    ensures StepItem(j, i, it).isPaused == j.isPaused
  {
  }

  /** The item in flight when the pause arrived: suspending there and resuming loses nothing. */
  lemma PauseAtItem(j: VideoJob, env: QueueEnv, quiet: QueueEnv, n: nat)
    requires n < |j.queue|
    requires j.isProcessing && !j.isPaused && HasTab(j.currentTabId)
    requires env.items(n).during == [PauseCommand]
    requires quiet.items(n) == env.items(n).(during := [])
    requires AgreeBetween(env, quiet, n + 1, |j.queue|)
    ensures RunQueue(ResumeJob(RunFrom(j, env, n)), env) == RunFrom(j, quiet, n)
  {
    var s := StepItem(j, n, quiet.items(n));
    PauseStep(j, n, env.items(n));
    RunFromStep(j, env, n);
    RunFromStep(j, quiet, n);
    QuietStep(j, n, quiet.items(n));
    if n + 1 < |j.queue| {
      RunFromHalt(PauseJob(s), env, n + 1);
      RunFromIgnoresCursor(s, env, n + 1, n + 1);
    } else {
      RunFromDone(PauseJob(s), env, n + 1);
      RunFromDone(s, quiet, n + 1);
    }
    RunFromAgree(s, env, quiet, n + 1);
  }

  /** A pause arriving during an item leaves that item's step as without it, then pauses. */
  lemma PauseStep(j: VideoJob, i: nat, it: ItemEnv)
    requires i < |j.queue| && it.during == [PauseCommand]
    ensures StepItem(j, i, it) == PauseJob(StepItem(j, i, it.(during := [])))
  {
    assert it.during[..0] == [];
  }

  /**
   * A pause that arrives during the last item does not suspend the run: the loop ends, so the
   * record is left paused but no longer processing, and a resume then does nothing.
   */
  lemma PauseOnLastItem(j: VideoJob, env: QueueEnv)
    requires |j.queue| > 0 && j.isProcessing && !j.isPaused
    requires env.items(|j.queue| - 1).during == [PauseCommand]
    ensures var r := RunFrom(j, env, |j.queue| - 1);
      && !r.isProcessing && r.isPaused && r.currentIndex == 0
      && RunQueue(ResumeJob(r), env) == ResumeJob(r)
  {
    var n := |j.queue| - 1;
    var it := env.items(n);
    RunFromStep(j, env, n);
    PauseStep(j, n, it);
    QuietStep(j, n, it.(during := []));
    RunFromDone(StepItem(j, n, it), env, n + 1);
  }

  /** The record once the loop started at `i` has processed the items before `n`. */
  ghost function RunTo(j: VideoJob, env: QueueEnv, i: nat, n: nat): VideoJob
    requires n <= |j.queue|
    decreases n - i
  {
    if i >= n || !j.isProcessing || j.isPaused then j
    else RunTo(StepItem(j, i, env.items(i)), env, i + 1, n)
  }

  /** With no command arriving before item `n`, the loop is still active when it reaches `n`. */
  lemma {:induction false} RunToActive(j: VideoJob, env: QueueEnv, i: nat, n: nat)
    requires i <= n <= |j.queue|
    requires j.isProcessing && !j.isPaused && NoControlsBetween(env, i, n)
    ensures SameConfig(j, RunTo(j, env, i, n))
    ensures RunTo(j, env, i, n).isProcessing && !RunTo(j, env, i, n).isPaused
    decreases n - i
  {
    if i < n {
      QuietStep(j, i, env.items(i));
      RunToActive(StepItem(j, i, env.items(i)), env, i + 1, n);
    }
  }

  /** ... and the loop started at `i` goes on from that record at `n`. */
  lemma {:induction false} RunFromSplit(j: VideoJob, env: QueueEnv, i: nat, n: nat)
    requires i <= n <= |j.queue|
    requires j.isProcessing && !j.isPaused && NoControlsBetween(env, i, n)
    ensures RunFrom(j, env, i) == RunFrom(RunTo(j, env, i, n), env, n)
    decreases n - i
  {
    if i < n {
      RunFromStep(j, env, i);
      QuietStep(j, i, env.items(i));
      RunFromSplit(StepItem(j, i, env.items(i)), env, i + 1, n);
    }
  }

  /** The first items are processed alike when their outcomes agree. */
  lemma {:induction false} RunToAgree(j: VideoJob, e1: QueueEnv, e2: QueueEnv, i: nat, n: nat)
    requires n <= |j.queue| && AgreeBetween(e1, e2, i, n)
    ensures RunTo(j, e1, i, n) == RunTo(j, e2, i, n)
    decreases n - i
  {
    if !(i >= n || !j.isProcessing || j.isPaused) {
      RunToAgree(StepItem(j, i, e1.items(i)), e1, e2, i + 1, n);
    }
  }

  /**
   * Cooperative pausing is lossless: when a pause arrives while item `n` is in flight, the
   * loop suspends at the next boundary, and a later resume continues from there; the result
   * is the record of a run in which the pause never came.
   */
  lemma PauseResumeLossless(j: VideoJob, env: QueueEnv, quiet: QueueEnv, i: nat, n: nat)
    requires i <= n < |j.queue|
    requires j.isProcessing && !j.isPaused && HasTab(j.currentTabId)
    requires NoControlsBetween(env, i, n) && env.items(n).during == [PauseCommand]
    requires AgreeBetween(env, quiet, i, n) && quiet.items(n) == env.items(n).(during := [])
    requires AgreeBetween(env, quiet, n + 1, |j.queue|)
    ensures RunQueue(ResumeJob(RunFrom(j, env, i)), env) == RunFrom(j, quiet, i)
  {
    AgreeNoControls(env, quiet, i, n);
    RunToActive(j, env, i, n);
    RunFromSplit(j, env, i, n);
    RunFromSplit(j, quiet, i, n);
    RunToAgree(j, env, quiet, i, n);
    PauseAtItem(RunTo(j, env, i, n), env, quiet, n);
  }

  /** The same from a start: pause during item `n`, then resume, equals the run without the pause. */
  lemma PauseResumeRun(msg: StartMessage, env: QueueEnv, n: nat)
    requires HasTab(msg.tabId) && n < |msg.queue|
    requires env.setup.during == []
    requires NoControlsBetween(env, 0, n) && env.items(n).during == [PauseCommand]
    ensures RunQueue(ResumeJob(RunQueue(StartJob(msg), env)), env)
      == RunQueue(StartJob(msg), WithoutControlsAt(env, n))
  {
    var j := StartedSetup(msg, env);
    var quiet := WithoutControlsAt(env, n);
    assert quiet.setup == env.setup;
    WithoutControlsAgree(env, n, 0, n);
    WithoutControlsAgree(env, n, n + 1, |msg.queue|);
    PauseResumeLossless(j, env, quiet, 0, n);
  }

  /** The item in flight when the stop arrived is the last one the loop processes. */
  lemma StopAtItem(j: VideoJob, env: QueueEnv, n: nat)
    requires n < |j.queue|
    requires j.isProcessing && !j.isPaused
    requires env.items(n).during == [StopCommand]
    ensures StopIndex(j, env, n) == n + 1
    ensures var r := RunFrom(j, env, n);
      && !r.isProcessing && !r.isPaused && r.videoCounter == n + 1
      && r.currentIndex == (if n + 1 < |j.queue| then n + 1 else 0)
  {
    var s := StepItem(j, n, env.items(n));
    assert !s.isProcessing && !s.isPaused;
    RunFromStep(j, env, n);
  }

  /**
   * A stop while item `n` is in flight ends the run at the next boundary: both flags are
   * cleared, the counter shows item `n + 1`, and the items after `n` are never touched.
   */
  lemma {:induction false} StopEndsRun(j: VideoJob, env: QueueEnv, i: nat, n: nat)
    requires i <= n < |j.queue|
    requires j.isProcessing && !j.isPaused
    requires NoControlsBetween(env, i, n) && env.items(n).during == [StopCommand]
    ensures StopIndex(j, env, i) == n + 1
    ensures var r := RunFrom(j, env, i);
      && !r.isProcessing && !r.isPaused && r.videoCounter == n + 1
      && r.currentIndex == (if n + 1 < |j.queue| then n + 1 else 0)
    decreases n - i
  {
    if i < n {
      RunFromStep(j, env, i);
      QuietStep(j, i, env.items(i));
      StopEndsRun(StepItem(j, i, env.items(i)), env, i + 1, n);
    } else {
      StopAtItem(j, env, n);
    }
  }

  /** After such a stop, resuming does nothing: the run does not restart. */
  lemma StopThenResume(j: VideoJob, env: QueueEnv, i: nat, n: nat)
    requires i <= n < |j.queue|
    requires j.isProcessing && !j.isPaused
    requires NoControlsBetween(env, i, n) && env.items(n).during == [StopCommand]
    ensures var r := RunFrom(j, env, i);
      && !r.isProcessing && !r.isPaused && r.videoCounter == n + 1
      && RunQueue(ResumeJob(r), env) == r
  {
    StopEndsRun(j, env, i, n);
  }

  /** What such a run logs: the entries of items `i .. n` and nothing of the items after `n`. */
  lemma StopLog(j: VideoJob, env: QueueEnv, i: nat, n: nat)
    requires i <= n < |j.queue|
    requires j.isProcessing && !j.isPaused
    requires NoControlsBetween(env, i, n) && env.items(n).during == [StopCommand]
    ensures RunFrom(j, env, i).log == UpsertAll(j.log, ItemEntries(j.queue, env, i, n + 1))
  {
    StopEndsRun(j, env, i, n);
    RunFromLog(j, env, i);
  }

  // ---------------------------------------------------------------------------
  // Where a media setup failure ends up.
  // ---------------------------------------------------------------------------

  /**
   * A failed media setup is logged under the first item's file name, and that entry is
   * then overwritten when the first item is processed: the failure is no longer visible
   * in the log. With a single item, the log ends holding that item's entry alone.
   */
  lemma SetupFailureOverwritten(msg: StartMessage, env: QueueEnv)
    requires HasTab(msg.tabId) && |msg.queue| >= 1 && msg.queue[0].filename != []
    requires SetupError(env.setup).Some? && env.setup.during == []
    requires DistinctFilenames(msg.queue)
    ensures var r := RunQueue(StartJob(msg), env);
      && Lookup(r.log, msg.queue[0].filename) == Some(ItemEntry(msg.queue[0], env.items(0)))
      && (|msg.queue| == 1 ==> r.log == [ItemEntry(msg.queue[0], env.items(0))])
  {
    var q := msg.queue;
    var f := q[0].filename;
    var e := ItemEntry(q[0], env.items(0));
    var k := SetupFailureLog(msg, env);
    var rest := ItemEntries(q, env, 1, k);
    ItemEntriesFacts(q, env, 1, k);
    assert f !in ItemNames(q, 1, k);
    UpsertAllOthers([e], rest, f);
    assert FindIndex([e], f) == 0;
    if |q| == 1 {
      assert rest == [];
    }
  }

  /** After a failed setup, the log is the first item's entry with the later items' entries upserted. */
  lemma SetupFailureLog(msg: StartMessage, env: QueueEnv) returns (k: nat)
    requires HasTab(msg.tabId) && |msg.queue| >= 1 && msg.queue[0].filename != []
    requires SetupError(env.setup).Some? && env.setup.during == []
    ensures 1 <= k <= |msg.queue|
    ensures RunQueue(StartJob(msg), env).log
         == UpsertAll([ItemEntry(msg.queue[0], env.items(0))], ItemEntries(msg.queue, env, 1, k))
  {
    var q := msg.queue;
    var f := q[0].filename;
    var j := StartedSetup(msg, env);
    var fail := LogEntry(f, Failed, SetupError(env.setup));
    assert j.log == [fail];
    k := StartedStop(msg, env);
    assert RunQueue(StartJob(msg), env) == RunFrom(j, env, 0);
    RunFromLog(j, env, 0);
    var e := ItemEntry(q[0], env.items(0));
    UpsertAllCons(j.log, e, ItemEntries(q, env, 1, k));
    assert Upsert(j.log, f, e.status, e.error) == [e];
  }

  // ---------------------------------------------------------------------------
  // A two-item run.
  // ---------------------------------------------------------------------------

  /** The content script's reply when a video is ready. */
  function VideoReady(url: string): Response {
    Response(true, "", url, false, None, "")
  }

  /** The content script's reply when the wait for a video timed out. */
  function VideoTimedOut(): Response {
    Response(false, "Video generation timeout", "", false, None, "")
  }

  /** The outcomes of the two-item run: set-up succeeds, the first video arrives, the second times out. */
  function TwoItemEnv(url: string): QueueEnv {
    QueueEnv(SetupEnv(Ok(EmptyReply), Ok(EmptyReply), []), (m: nat) => TwoItemOutcome(url, m))
  }

  function TwoItemOutcome(url: string, m: nat): ItemEnv {
    if m == 0 then ItemEnv(Ok(EmptyReply), SendResult(None, Some(VideoReady(url))), [])
    else ItemEnv(Ok(EmptyReply), SendResult(None, Some(VideoTimedOut())), [])
  }

  /**
   * Two items where the first succeeds and the second times out: the log shows the first
   * 'completed' and the second 'failed' with the timeout message, one video is kept, and
   * the run finishes with the cursor reset.
   */
  lemma TwoItemRun(a: QueueItem, b: QueueItem, tab: int, url: string)
    requires tab != 0 && url != [] && a.filename != b.filename
    ensures var r := RunQueue(StartJob(StartMessage([a, b], Some(tab), None, None)), TwoItemEnv(url));
      && r.log == [LogEntry(a.filename, Completed, None), LogEntry(b.filename, Failed, Some("Video generation timeout"))]
      && r.generatedVideos == [GeneratedVideo(a.outputFilename, url, a.filename)]
      && !r.isProcessing && r.currentIndex == 0 && r.videoCounter == 2
  {
    var env := TwoItemEnv(url);
    var j0 := StartJob(StartMessage([a, b], Some(tab), None, None));
    assert SetupError(env.setup).None?;
    assert SetupJob(j0, env.setup) == j0;
    assert env.items(0) == TwoItemOutcome(url, 0) && env.items(1) == TwoItemOutcome(url, 1);
    assert SendResult(None, Some(VideoReady(url))) == Ok(VideoReady(url));
    assert SendResult(None, Some(VideoTimedOut())) == Err("Video generation timeout");
    assert ItemResult(env.items(0)) == Success(url);
    assert ItemResult(env.items(1)) == Failure("Video generation timeout");
    var j1 := StepItem(j0, 0, env.items(0));
    UpsertSpec([], a.filename, Processing, None);
    assert j1.log == [LogEntry(a.filename, Completed, None)];
    var j2 := StepItem(j1, 1, env.items(1));
    UpsertSpec(j1.log, b.filename, Processing, None);
    assert j2.log == [LogEntry(a.filename, Completed, None), LogEntry(b.filename, Failed, Some("Video generation timeout"))];
    RunFromStep(j0, env, 0);
    RunFromStep(j1, env, 1);
  }
}
