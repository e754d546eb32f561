/**
 * The video run of the background worker: the `state` record, the message-handler
 * transitions that change it, and `processQueue`, which turns each queued image into a
 * video one item at a time.
 *
 * Each operation is a method of `VideoQueue`, whose fields are those of `state`; each method
 * is proved to leave `Snapshot()` equal to a function of the old snapshot, and the
 * properties of the run are proved about those functions (module `VideoProperties`).
 */
module Video {
  import opened Wrappers
  import opened Text
  import opened Messaging
  import opened Log

  /** An image to animate, with the name its video will be saved under. */
  datatype QueueItem = QueueItem(filename: string, data: string, outputFilename: string)

  datatype GeneratedVideo = GeneratedVideo(filename: string, url: string, sourceFilename: string)

  /** The value of the `state` record. */
  datatype VideoJob = VideoJob(
    queue: seq<QueueItem>,
    isProcessing: bool,
    isPaused: bool,
    currentIndex: nat,
    videoCounter: nat,
    aspectRatio: string,
    downloadFolder: string,
    log: seq<LogEntry>,
    currentTabId: Option<int>,
    generatedVideos: seq<GeneratedVideo>)

  /** The `startProcessing` message. Absent fields are `None`. */
  datatype StartMessage = StartMessage(
    queue: seq<QueueItem>,
    tabId: Option<int>,
    aspectRatio: Option<string>,
    downloadFolder: Option<string>)

  /** The `getState` reply: the record with the video list replaced by its length. */
  datatype VideoStateView = VideoStateView(
    queue: seq<QueueItem>,
    isProcessing: bool,
    isPaused: bool,
    currentIndex: nat,
    videoCounter: nat,
    aspectRatio: string,
    downloadFolder: string,
    log: seq<LogEntry>,
    currentTabId: Option<int>,
    generatedVideos: nat)

  /** The `getState` reply for record `j`. */
  function StateView(j: VideoJob): (v: VideoStateView)
    ensures v.queue == j.queue && v.isProcessing == j.isProcessing && v.isPaused == j.isPaused
    ensures v.currentIndex == j.currentIndex && v.videoCounter == j.videoCounter
    ensures v.aspectRatio == j.aspectRatio && v.downloadFolder == j.downloadFolder
    ensures v.log == j.log && v.currentTabId == j.currentTabId
    ensures v.generatedVideos == |j.generatedVideos|
  {
    VideoStateView(j.queue, j.isProcessing, j.isPaused, j.currentIndex, j.videoCounter,
      j.aspectRatio, j.downloadFolder, j.log, j.currentTabId, |j.generatedVideos|)
  }

  /** The `getGeneratedVideos` reply element. */
  datatype VideoListing = VideoListing(index: nat, filename: string, url: string)

  // ---------------------------------------------------------------------------
  // What the page does, as outcomes of the content-script calls.
  // ---------------------------------------------------------------------------

  /**
   * The setup calls made before the first item (`ensureVideoMode`, then `setAspectRatio`,
   * which is only sent when the first succeeded), and the popup commands handled meanwhile.
   */
  datatype SetupEnv = SetupEnv(ensureVideoMode: Outcome, setAspectRatio: Outcome, during: seq<Control>)

  /**
   * The calls made for one item (`uploadImage`, then `waitForVideoCompletion`, only sent
   * when the upload succeeded), and the popup commands handled while they were awaited.
   * The `goBack` call between items has no effect on the state and is not represented.
   */
  datatype ItemEnv = ItemEnv(upload: Outcome, wait: Outcome, during: seq<Control>)

  /** Outcomes for a whole run: setup, and one record per queue position. */
  datatype QueueEnv = QueueEnv(setup: SetupEnv, items: nat -> ItemEnv)

  // ---------------------------------------------------------------------------
  // The message-handler transitions.
  // ---------------------------------------------------------------------------

  /** The record as the worker starts. */
  function InitialJob(): VideoJob {
    VideoJob([], false, false, 0, 0, "16:9", "grok-videos", [], None, [])
  }

  /** The record `startProcessing` writes before it calls `processQueue`; nothing of the old record survives. */
  function StartJob(msg: StartMessage): VideoJob {
    VideoJob(msg.queue, true, false, 0, 0, OrElse(msg.aspectRatio, "16:9"),
             OrElse(msg.downloadFolder, "grok-videos"), [], msg.tabId, [])
  }

  function PauseJob(j: VideoJob): VideoJob {
    j.(isPaused := true)
  }

  /** The record `resumeProcessing` writes before it calls `processQueue`. */
  function ResumeJob(j: VideoJob): VideoJob {
    j.(isPaused := false)
  }

  function StopJob(j: VideoJob): VideoJob {
    j.(isProcessing := false, isPaused := false)
  }

  /** `updateSettings`: each setting the message defines is written, even when empty. */
  function SettingsJob(j: VideoJob, aspectRatio: Option<string>, downloadFolder: Option<string>): VideoJob {
    j.(aspectRatio := aspectRatio.GetOr(j.aspectRatio), downloadFolder := downloadFolder.GetOr(j.downloadFolder))
  }

  function ApplyControl(j: VideoJob, c: Control): VideoJob {
    match c
    case PauseCommand => PauseJob(j)
    case StopCommand => StopJob(j)
  }

  /** The commands handled in order. */
  function ApplyControls(j: VideoJob, cs: seq<Control>): (r: VideoJob)
    ensures r.(isProcessing := j.isProcessing, isPaused := j.isPaused) == j
    ensures cs == [] ==> r == j
  {
    if cs == [] then j else ApplyControl(ApplyControls(j, cs[..|cs| - 1]), cs[|cs| - 1])
  }

  /** One `downloadFile(url, path)` call. */
  datatype SaveRequest = SaveRequest(url: string, path: string)

  /** What `downloadAllVideos` asks the browser to save: each video's URL under `folder/filename`, folder defaulted. */
  function DownloadTargets(folder: string, videos: seq<GeneratedVideo>): (r: seq<SaveRequest>)
    ensures |r| == |videos|
    ensures forall i :: 0 <= i < |videos| ==>
      r[i] == SaveRequest(videos[i].url, OrElse(Some(folder), "grok-videos") + "/" + videos[i].filename)
  {
    if videos == [] then []
    else
      var first := SaveRequest(videos[0].url, OrElse(Some(folder), "grok-videos") + "/" + videos[0].filename);
      [first] + DownloadTargets(folder, videos[1..])
  }

  // ---------------------------------------------------------------------------
  // processQueue.
  // ---------------------------------------------------------------------------

  /** The error of the setup step, if one of its calls was rejected. */
  function SetupError(s: SetupEnv): Option<string> {
    match s.ensureVideoMode
    case Err(m) => Some(m)
    case Ok(_) =>
      match s.setAspectRatio
      case Err(m) => Some(m)
      case Ok(_) => None
  }

  /** `state.queue[0]?.filename || 'Setup'`: where a setup failure is logged. */
  function SetupLabel(queue: seq<QueueItem>): string {
    if |queue| > 0 && queue[0].filename != [] then queue[0].filename else "Setup"
  }

  /** The setup step before the first item. */
  function SetupJob(j: VideoJob, s: SetupEnv): VideoJob {
    var j1 := match SetupError(s)
      case Some(m) => j.(log := Upsert(j.log, SetupLabel(j.queue), Failed, Some(m)))
      case None => j;
    ApplyControls(j1, s.during)
  }

  /**
   * The result of one item: the video URL, or the error it failed with. A wait reply
   * without success or without a URL fails with its own error, or "Failed to get video URL".
   */
  function ItemResult(it: ItemEnv): Result<string> {
    match it.upload
    case Err(m) => Failure(m)
    case Ok(_) =>
      match it.wait
      case Err(m) => Failure(m)
      case Ok(r) =>
        if r.success && r.videoUrl != [] then Success(r.videoUrl)
        else Failure(if r.error != [] then r.error else "Failed to get video URL")
  }

  /** The log entry an item ends with. */
  function ItemEntry(item: QueueItem, it: ItemEnv): LogEntry {
    match ItemResult(it)
    case Success(_) => LogEntry(item.filename, Completed, None)
    case Failure(m) => LogEntry(item.filename, Failed, Some(m))
  }

  /** The videos an item adds: one exactly when it succeeded. */
  function ItemVideos(item: QueueItem, it: ItemEnv): seq<GeneratedVideo> {
    match ItemResult(it)
    case Success(url) => [GeneratedVideo(item.outputFilename, url, item.filename)]
    case Failure(_) => []
  }

  /** The same queue, settings and tab. */
  predicate SameConfig(a: VideoJob, b: VideoJob) {
    a.queue == b.queue && a.aspectRatio == b.aspectRatio && a.downloadFolder == b.downloadFolder
    && a.currentTabId == b.currentTabId
  }

  /**
   * What one iteration of the item loop leaves behind: the cursor and counter at the item,
   * its final log entry (the 'processing' entry written first is overwritten in place, see
   * `Log.UpsertOverwrite`), its video if there is one, and the commands handled meanwhile.
   */
  function StepItem(j: VideoJob, i: nat, it: ItemEnv): (r: VideoJob)
    requires i < |j.queue|
    ensures SameConfig(j, r)
    ensures r.currentIndex == i && r.videoCounter == i + 1
  {
    var item := j.queue[i];
    var e := ItemEntry(item, it);
    ApplyControls(j.(currentIndex := i, videoCounter := i + 1,
                     log := Upsert(j.log, item.filename, e.status, e.error),
                     generatedVideos := j.generatedVideos + ItemVideos(item, it)), it.during)
  }

  /**
   * The item loop from index `i`: it suspends at the first boundary where the run is
   * stopped or paused, recording the cursor; after the last item it clears `isProcessing`
   * and resets the cursor.
   */
  function RunFrom(j: VideoJob, env: QueueEnv, i: nat): VideoJob
    decreases |j.queue| - i
  {
    if i >= |j.queue| then j.(isProcessing := false, currentIndex := 0)
    else if !j.isProcessing || j.isPaused then j.(currentIndex := i)
    else RunFrom(StepItem(j, i, env.items(i)), env, i + 1)
  }

  /** An active loop processes item `i` and goes on from `i + 1`. */
  lemma RunFromStep(j: VideoJob, env: QueueEnv, i: nat)
    requires i < |j.queue| && j.isProcessing && !j.isPaused
    ensures RunFrom(j, env, i) == RunFrom(StepItem(j, i, env.items(i)), env, i + 1)
  {
  }

  /** A loop that is no longer active leaves at the boundary it reached. */
  lemma RunFromHalt(j: VideoJob, env: QueueEnv, i: nat)
    requires i < |j.queue| && !(j.isProcessing && !j.isPaused)
    ensures RunFrom(j, env, i) == j.(currentIndex := i)
  {
  }

  /** A loop past the last item finishes the run and resets the cursor. */
  lemma RunFromDone(j: VideoJob, env: QueueEnv, i: nat)
    requires i >= |j.queue|
    ensures RunFrom(j, env, i) == j.(isProcessing := false, currentIndex := 0)
  {
  }

  /** `processQueue`: the guard, setup when starting from the first item, then the item loop. */
  function RunQueue(j: VideoJob, env: QueueEnv): VideoJob {
    if !j.isProcessing || j.isPaused || !HasTab(j.currentTabId) then j
    else
      var j1 := if j.currentIndex == 0 then SetupJob(j, env.setup) else j;
      RunFrom(j1, env, j.currentIndex)
  }

  // ---------------------------------------------------------------------------
  // The `state` record and its handlers.
  // ---------------------------------------------------------------------------

  class VideoQueue {
    var queue: seq<QueueItem>
    var isProcessing: bool
    var isPaused: bool
    var currentIndex: nat
    var videoCounter: nat
    var aspectRatio: string
    var downloadFolder: string
    var log: seq<LogEntry>
    var currentTabId: Option<int>
    var generatedVideos: seq<GeneratedVideo>

    function Snapshot(): VideoJob
      reads this
    {
      VideoJob(queue, isProcessing, isPaused, currentIndex, videoCounter, aspectRatio,
               downloadFolder, log, currentTabId, generatedVideos)
    }

    constructor ()
      ensures Snapshot() == InitialJob()
    {
      queue := [];
      isProcessing := false;
      isPaused := false;
      currentIndex := 0;
      videoCounter := 0;
      aspectRatio := "16:9";
      downloadFolder := "grok-videos";
      log := [];
      currentTabId := None;
      generatedVideos := [];
    }

    /** `getState`: the record, with the number of generated videos in place of the list. */
    method GetState() returns (view: VideoStateView)
      ensures view.generatedVideos == |generatedVideos|
      ensures view == StateView(Snapshot())
    {
      view := VideoStateView(queue, isProcessing, isPaused, currentIndex, videoCounter,
        aspectRatio, downloadFolder, log, currentTabId, |generatedVideos|);
    }

    /** `updateSettings`. */
    method UpdateSettings(newAspectRatio: Option<string>, newDownloadFolder: Option<string>)
      modifies this
      ensures Snapshot() == SettingsJob(old(Snapshot()), newAspectRatio, newDownloadFolder)
    {
      if newAspectRatio.Some? {
        aspectRatio := newAspectRatio.value;
      }
      if newDownloadFolder.Some? {
        downloadFolder := newDownloadFolder.value;
      }
    }

    /** `startProcessing`: overwrite the record, whatever run was active, then run the queue. */
    method StartProcessing(msg: StartMessage, env: QueueEnv)
      modifies this
      ensures Snapshot() == RunQueue(StartJob(msg), env)
    {
      queue := msg.queue;
      isProcessing := true;
      isPaused := false;
      currentTabId := msg.tabId;
      currentIndex := 0;
      videoCounter := 0;
      log := [];
      generatedVideos := [];
      aspectRatio := OrElse(msg.aspectRatio, "16:9");
      downloadFolder := OrElse(msg.downloadFolder, "grok-videos");
      ProcessQueue(env);
    }

    /** `pauseProcessing`. */
    method PauseProcessing()
      modifies this
      ensures Snapshot() == PauseJob(old(Snapshot()))
    {
      isPaused := true;
    }

    /** `resumeProcessing`: clear the pause, then run the queue from the cursor. */
    method ResumeProcessing(env: QueueEnv)
      modifies this
      ensures Snapshot() == RunQueue(ResumeJob(old(Snapshot())), env)
    {
      isPaused := false;
      ProcessQueue(env);
    }

    /** `stopProcessing`. */
    method StopProcessing()
      modifies this
      ensures Snapshot() == StopJob(old(Snapshot()))
    {
      isProcessing := false;
      isPaused := false;
    }

    /** `getGeneratedVideos`: each video's position, file name and URL. */
    method GetGeneratedVideos() returns (videos: seq<VideoListing>)
      ensures |videos| == |generatedVideos|
      ensures forall i :: 0 <= i < |videos| ==>
        videos[i] == VideoListing(i, generatedVideos[i].filename, generatedVideos[i].url)
    {
      var gv := generatedVideos;
      videos := seq(|gv|, i requires 0 <= i < |gv| => VideoListing(i, gv[i].filename, gv[i].url));
    }

    /** `clearGeneratedVideos`. */
    method ClearGeneratedVideos()
      modifies this
      ensures Snapshot() == old(Snapshot()).(generatedVideos := [])
    {
      generatedVideos := [];
    }

    /**
     * `downloadAllVideos`: with no videos, it fails with "No videos to download"; otherwise
     * it asks for every video to be saved under the download folder (a failed download is
     * skipped), clears the list and reports how many there were.
     */
    method DownloadAllVideos() returns (r: Result<nat>, targets: seq<SaveRequest>)
      modifies this
      ensures old(generatedVideos) == [] ==>
        r == Failure("No videos to download") && targets == [] && Snapshot() == old(Snapshot())
      ensures old(generatedVideos) != [] ==>
        && r == Success(|old(generatedVideos)|)
        && targets == DownloadTargets(old(downloadFolder), old(generatedVideos))
        && Snapshot() == old(Snapshot()).(generatedVideos := [])
    {
      var count := |generatedVideos|;
      if count == 0 {
        return Failure("No videos to download"), [];
      }
      var folder := OrElse(Some(downloadFolder), "grok-videos");
      targets := [];
      var k := 0;
      while k < count
        invariant 0 <= k <= count
        invariant |targets| == k
        invariant forall m :: 0 <= m < k ==>
          targets[m] == SaveRequest(generatedVideos[m].url, folder + "/" + generatedVideos[m].filename)
      {
        targets := targets + [SaveRequest(generatedVideos[k].url, folder + "/" + generatedVideos[k].filename)];
        k := k + 1;
      }
      generatedVideos := [];
      r := Success(count);
    }

    /** `addLogEntry`. */
    method AddLogEntry(name: string, status: Status, error: Option<string>)
      modifies this`log
      ensures log == Upsert(old(log), name, status, error)
    {
      var existing := FindIndex(log, name);
      if existing >= 0 {
        log := log[existing := LogEntry(name, status, error)];
      } else {
        log := log + [LogEntry(name, status, error)];
      }
    }

    /** `updateLogEntry`: the status and error of the entry found are written in place, or an entry is added. */
    method UpdateLogEntry(name: string, status: Status, error: Option<string>)
      modifies this`log
      ensures log == Upsert(old(log), name, status, error)
    {
      var existing := FindIndex(log, name);
      if existing >= 0 {
        log := log[existing := log[existing].(status := status, error := error)];
      } else {
        AddLogEntry(name, status, error);
      }
    }

    /** The pause and stop handlers that ran while a content-script call was awaited. */
    method HandleControls(cs: seq<Control>)
      modifies this
      ensures Snapshot() == ApplyControls(old(Snapshot()), cs)
    {
      var k := 0;
      while k < |cs|
        invariant 0 <= k <= |cs|
        invariant Snapshot() == ApplyControls(old(Snapshot()), cs[..k])
      {
        match cs[k] {
          case PauseCommand => PauseProcessing();
          case StopCommand => StopProcessing();
        }
        assert cs[..k + 1][..k] == cs[..k];
        k := k + 1;
      }
      assert cs[..|cs|] == cs;
    }

    /** The setup step: a rejected call is logged and the run goes on. */
    method RunSetup(s: SetupEnv)
      modifies this
      ensures Snapshot() == SetupJob(old(Snapshot()), s)
    {
      var failure: Option<string> := None;
      match s.ensureVideoMode {
        case Err(m) =>
          failure := Some(m);
        case Ok(_) =>
          match s.setAspectRatio {
            case Err(m) => failure := Some(m);
            case Ok(_) =>
          }
      }
      if failure.Some? {
        var name := if |queue| > 0 && queue[0].filename != [] then queue[0].filename else "Setup";
        AddLogEntry(name, Failed, failure);
      }
      HandleControls(s.during);
    }

    /** The upload and the wait for one item, as the `try` block settles them. */
    static method AwaitItem(it: ItemEnv) returns (success: bool, videoUrl: string, error: string)
      ensures success ==> videoUrl != [] && ItemResult(it) == Success(videoUrl)
      ensures !success ==> ItemResult(it) == Failure(error)
    {
      success, videoUrl, error := false, "", "";
      match it.upload {
        case Err(m) =>
          error := m;
        case Ok(_) =>
          match it.wait {
            case Err(m) =>
              error := m;
            case Ok(result) =>
              if result.success && result.videoUrl != [] {
                videoUrl := result.videoUrl;
                success := true;
              } else {
                error := if result.error != [] then result.error else "Failed to get video URL";
              }
          }
      }
    }

    /** The body of the item loop for item `i`. */
    method ProcessItem(i: nat, it: ItemEnv)
      requires i < |queue|
      modifies this
      ensures Snapshot() == StepItem(old(Snapshot()), i, it)
    {
      var item := queue[i];
      ghost var j0 := Snapshot();
      ghost var log0 := log;
      currentIndex := i;
      videoCounter := i + 1;
      AddLogEntry(item.filename, Processing, None);
      var success, videoUrl, error := AwaitItem(it);
      if success && videoUrl != [] {
        UpdateLogEntry(item.filename, Completed, None);
        generatedVideos := generatedVideos + [GeneratedVideo(item.outputFilename, videoUrl, item.filename)];
      } else {
        UpdateLogEntry(item.filename, Failed, Some(error));
      }
      ghost var e := ItemEntry(item, it);
      UpsertOverwrite(log0, item.filename, Processing, None, e.status, e.error);
      assert Snapshot() == j0.(currentIndex := i, videoCounter := i + 1,
                               log := Upsert(j0.log, item.filename, e.status, e.error),
                               generatedVideos := j0.generatedVideos + ItemVideos(item, it));
      HandleControls(it.during);
    }

    /** The item loop of `processQueue`, from item `i0`: it stops at the first boundary where the run is no longer active. */
    method RunItems(env: QueueEnv, i0: nat)
      modifies this
      ensures Snapshot() == RunFrom(old(Snapshot()), env, i0)
    {
      var i: nat := i0;
      ghost var target := RunFrom(Snapshot(), env, i0);
      while i < |queue| && isProcessing && !isPaused
        invariant RunFrom(Snapshot(), env, i) == target
        decreases |queue| - i
      {
        ghost var before := Snapshot();
        RunFromStep(before, env, i);
        ProcessItem(i, env.items(i));
        assert Snapshot() == StepItem(before, i, env.items(i));
        i := i + 1;
      }
      if i < |queue| {
        RunFromHalt(Snapshot(), env, i);
        currentIndex := i;
      } else {
        RunFromDone(Snapshot(), env, i);
        isProcessing := false;
        currentIndex := 0;
      }
    }

    /** `processQueue`. */
    method ProcessQueue(env: QueueEnv)
      modifies this
      ensures Snapshot() == RunQueue(old(Snapshot()), env)
    {
      if !isProcessing || isPaused || !HasTab(currentTabId) {
        return;
      }
      var i0 := currentIndex;
      if currentIndex == 0 {
        RunSetup(env.setup);
      }
      RunItems(env, i0);
    }
  }
}
