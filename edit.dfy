/**
 * The image-edit run of the background worker: the `imageEditState` record, the
 * message-handler transitions that change it, and `processImageEditQueue`, which submits
 * every edit prompt to the Grok page and then collects one generated image per prompt.
 *
 * As for the video run, each operation is a method of `EditQueue`, whose fields are those of
 * `imageEditState`, proved to leave `Snapshot()` equal to a function of the old snapshot;
 * the properties of the run are proved about those functions (module `EditProperties`).
 */
module Edit {
  import opened Wrappers
  import opened Text
  import opened Messaging
  import opened Log
  import opened Filenames

  /** A collected image: its file name, its data URL (or the thumbnail URL) and its prompt. */
  datatype GeneratedImage = GeneratedImage(filename: string, url: string, prompt: string)

  /** The value of the `imageEditState` record. The delay is in seconds. */
  datatype EditJob = EditJob(
    prompts: seq<string>,
    isProcessing: bool,
    isPaused: bool,
    currentIndex: nat,
    delay: int,
    log: seq<LogEntry>,
    currentTabId: Option<int>,
    generatedImages: seq<GeneratedImage>,
    downloadFolder: string,
    error: Option<string>)

  /** The `startImageEdit` message. Absent fields are `None`. */
  datatype StartEditMessage = StartEditMessage(
    prompts: seq<string>,
    tabId: Option<int>,
    delay: Option<int>,
    downloadFolder: Option<string>)

  /** The `getImageEditState` reply: no tab or folder, and the number of images in place of the list. */
  datatype EditStateView = EditStateView(
    prompts: seq<string>,
    isProcessing: bool,
    isPaused: bool,
    currentIndex: nat,
    delay: int,
    log: seq<LogEntry>,
    generatedImages: nat,
    error: Option<string>)

  /** The `getImageEditState` reply for record `j`. */
  function StateView(j: EditJob): (v: EditStateView)
    ensures v.prompts == j.prompts && v.isProcessing == j.isProcessing && v.isPaused == j.isPaused
    ensures v.currentIndex == j.currentIndex && v.delay == j.delay && v.log == j.log
    ensures v.error == j.error && v.generatedImages == |j.generatedImages|
  {
    EditStateView(j.prompts, j.isProcessing, j.isPaused, j.currentIndex, j.delay, j.log, |j.generatedImages|, j.error)
  }

  /** The `getEditGeneratedImages` reply element. */
  datatype ImageListing = ImageListing(index: nat, filename: string, url: string)

  // ---------------------------------------------------------------------------
  // Fixed log labels and messages.
  // ---------------------------------------------------------------------------

  const SetupLabel := "Setup"
  const EditModeLabel := "Edit mode verified"
  const WaitingLabel := "Waiting for generations..."
  const CollectingLabel := "Collecting images..."
  const UnexpectedLabel := "Unexpected error"

  const NotAvailableMessage := "Content script not available. Please refresh the Grok page and try again."
  const NotInEditModeMessage := "Not in edit mode. Upload an image, click \"Editar imagen\", then try again."
  const NoThumbnailsMessage := "No thumbnails found"

  // ---------------------------------------------------------------------------
  // What the page does, as outcomes of the content-script calls.
  // ---------------------------------------------------------------------------

  /**
   * Reaching the content script: a `ping`; when it is rejected, the injection of the script
   * (`None` when it succeeded, else its error) and a second `ping`.
   */
  datatype ProbeEnv = ProbeEnv(ping: Outcome, inject: Option<string>, reping: Outcome)

  /**
   * The calls before the prompt loop (`checkEditMode`, then the first `getEditThumbnails`),
   * and the popup commands handled while any set-up call was awaited.
   */
  datatype EditSetupEnv = EditSetupEnv(probe: ProbeEnv, checkEditMode: Outcome, thumbnails: Outcome, during: seq<Control>)

  /**
   * The calls for one prompt (`clickReferenceImage`, sent for every prompt but the first,
   * then `enterEditPrompt` and `submitEditPrompt`, each only after the previous succeeded),
   * and the popup commands handled while they, or the delay after them, were awaited.
   */
  datatype PromptEnv = PromptEnv(clickReference: Outcome, enterPrompt: Outcome, submitPrompt: Outcome, during: seq<Control>)

  /**
   * Outcomes for a whole run: set-up, one record per prompt position, the wait for the
   * generations (by the thumbnail count it is asked to wait for), the final
   * `getEditThumbnails`, the `fetchImageBase64` call (by the prompt position it is made for), and
   * the popup commands handled after the prompt loop.
   */
  datatype EditEnv = EditEnv(
    setup: EditSetupEnv,
    steps: nat -> PromptEnv,
    waitForGeneration: nat -> Outcome,
    thumbnails: Outcome,
    fetch: nat -> Outcome,
    after: seq<Control>)

  // ---------------------------------------------------------------------------
  // The message-handler transitions.
  // ---------------------------------------------------------------------------

  /** The record as the worker starts. */
  function InitialEditJob(): EditJob {
    EditJob([], false, false, 0, 5, [], None, [], "grok-edits", None)
  }

  /** `message.delay || 5`: an absent or zero delay falls back to five seconds. */
  function DelayOrDefault(delay: Option<int>): (r: int)
    ensures delay.Some? && delay.value != 0 ==> r == delay.value
    ensures delay.None? || delay.value == 0 ==> r == 5
  {
    if delay.Some? && delay.value != 0 then delay.value else 5
  }

  /** The record `startImageEdit` writes before it runs the queue; nothing of the old record survives. */
  function StartEdit(msg: StartEditMessage): EditJob {
    EditJob(msg.prompts, true, false, 0, DelayOrDefault(msg.delay), [], msg.tabId, [],
            OrElse(msg.downloadFolder, "grok-edits"), None)
  }

  function PauseEdit(j: EditJob): EditJob {
    j.(isPaused := true)
  }

  function ResumeEdit(j: EditJob): EditJob {
    j.(isPaused := false)
  }

  function StopEdit(j: EditJob): EditJob {
    j.(isProcessing := false, isPaused := false)
  }

  function ApplyControl(j: EditJob, c: Control): EditJob {
    match c
    case PauseCommand => PauseEdit(j)
    case StopCommand => StopEdit(j)
  }

  /** The commands handled in order; they only touch the two flags. */
  function ApplyControls(j: EditJob, cs: seq<Control>): (r: EditJob)
    ensures r.(isProcessing := j.isProcessing, isPaused := j.isPaused) == j
    ensures cs == [] ==> r == j
  {
    if cs == [] then j else ApplyControl(ApplyControls(j, cs[..|cs| - 1]), cs[|cs| - 1])
  }

  /**
   * `debugEditDOM`: with a tab, the content script's reply, or `{ success: false, error }`
   * when the call is rejected; without one, "No tabId provided".
   */
  function DebugEditReply(tabId: Option<int>, o: Outcome): (r: Response)
    ensures !HasTab(tabId) ==> !r.success && r.error == "No tabId provided"
    ensures HasTab(tabId) && o.Ok? ==> r == o.response
    ensures HasTab(tabId) && o.Err? ==> !r.success && r.error == o.message
  {
    if !HasTab(tabId) then Response(false, "No tabId provided", "", false, None, "")
    else match o
      case Ok(resp) => resp
      case Err(m) => Response(false, m, "", false, None, "")
  }

  // ---------------------------------------------------------------------------
  // `processImageEditQueue` as functions.
  // ---------------------------------------------------------------------------

  /** The content script answered: to the first `ping`, or to the second after a successful injection. */
  predicate Reachable(p: ProbeEnv) {
    p.ping.Ok? || (p.inject.None? && p.reping.Ok?)
  }

  /** The initial thumbnail count: the length of a successful reply's list, or 1. */
  function InitialCount(o: Outcome): nat {
    match o
    case Ok(r) => if r.success && r.thumbnails.Some? then |r.thumbnails.value| else 1
    case Err(_) => 1
  }

  /** `Prompt ${i + 1}: "…"`, with the first 40 characters of the prompt and "..." when it is longer. */
  function PromptLabel(i: nat, prompt: string): string {
    "Prompt " + DecimalString(i + 1) + ": \"" + Take(prompt, 40) + (if |prompt| > 40 then "..." else "") + "\""
  }

  /** The error of the first rejected call for prompt `i`; the reference click is not sent for the first prompt. */
  function PromptError(i: nat, pe: PromptEnv): Option<string> {
    if i > 0 && pe.clickReference.Err? then Some(pe.clickReference.message)
    else if pe.enterPrompt.Err? then Some(pe.enterPrompt.message)
    else if pe.submitPrompt.Err? then Some(pe.submitPrompt.message)
    else None
  }

  /** The log entry a prompt ends its iteration with: still 'processing' once submitted, else 'failed'. */
  function PromptEntry(i: nat, prompt: string, pe: PromptEnv): LogEntry {
    match PromptError(i, pe)
    case None => LogEntry(PromptLabel(i, prompt), Processing, None)
    case Some(m) => LogEntry(PromptLabel(i, prompt), Failed, Some(m))
  }

  /**
   * One iteration of the prompt loop: the cursor at the prompt, its final entry (the
   * 'processing' entry written first is overwritten in place), and the commands handled meanwhile.
   */
  function StepPrompt(j: EditJob, i: nat, pe: PromptEnv): (r: EditJob)
    requires i < |j.prompts|
    ensures r.prompts == j.prompts
  {
    var e := PromptEntry(i, j.prompts[i], pe);
    ApplyControls(j.(currentIndex := i, log := Upsert(j.log, e.name, e.status, e.error)), pe.during)
  }

  /** How the prompt loop ends: after the last prompt, or at a boundary where the run was stopped or paused. */
  datatype PromptLoop = Finished(job: EditJob) | Halted(job: EditJob)

  /** The prompt loop from index `i`; a halt records the cursor. */
  function PromptsFrom(j: EditJob, env: EditEnv, i: nat): PromptLoop
    decreases |j.prompts| - i
  {
    if i >= |j.prompts| then Finished(j)
    else if !j.isProcessing || j.isPaused then Halted(j.(currentIndex := i))
    else PromptsFrom(StepPrompt(j, i, env.steps(i)), env, i + 1)
  }

  /** The thumbnail count the run waits for: the initial ones and two per prompt. */
  function ExpectedCount(initial: nat, prompts: seq<string>): nat {
    initial + 2 * |prompts|
  }

  /** Step 5: the wait for all generations, logged as 'processing' and then settled. */
  function WaitStep(j: EditJob, env: EditEnv, initial: nat): EditJob {
    var log1 := Upsert(j.log, WaitingLabel, Processing, None);
    match env.waitForGeneration(ExpectedCount(initial, j.prompts))
    case Ok(_) => j.(log := Upsert(log1, WaitingLabel, Completed, None))
    case Err(m) => j.(log := Upsert(log1, WaitingLabel, Failed, Some(m)))
  }

  /** `allThumbnails.slice(initial)`. */
  function Generated(all: seq<string>, initial: nat): seq<string> {
    if initial <= |all| then all[initial..] else []
  }

  /** The image URL: the fetched data URL when the fetch succeeded with one, else the thumbnail URL. */
  function FetchedUrl(src: string, o: Outcome): string {
    match o
    case Ok(r) => if r.success && r.dataUrl != [] then r.dataUrl else src
    case Err(_) => src
  }

  /** Collecting the image of prompt `p` from thumbnail `src`; the prompt's entry becomes 'completed'. */
  function CollectOne(j: EditJob, p: nat, src: string, fetch: nat -> Outcome): EditJob
    requires p < |j.prompts|
  {
    j.(generatedImages := j.generatedImages
         + [GeneratedImage(EditImageFilename(p, j.prompts[p]), FetchedUrl(src, fetch(p)), j.prompts[p])],
       log := Upsert(j.log, PromptLabel(p, j.prompts[p]), Completed, None))
  }

  /** The collection loop from prompt `p`: prompt `p` takes generated thumbnail `2p`, when there is one. */
  function CollectFrom(j: EditJob, gen: seq<string>, fetch: nat -> Outcome, p: nat): (r: EditJob)
    ensures r.prompts == j.prompts
    decreases |j.prompts| - p
  {
    if p >= |j.prompts| then j
    else if 2 * p < |gen| then CollectFrom(CollectOne(j, p, gen[2 * p], fetch), gen, fetch, p + 1)
    else CollectFrom(j, gen, fetch, p + 1)
  }

  /** Step 6: the final thumbnails; an empty or failed reply is logged and collects nothing. */
  function CollectStep(j: EditJob, env: EditEnv, initial: nat): EditJob {
    var j1 := j.(log := Upsert(j.log, CollectingLabel, Processing, None));
    match env.thumbnails
    case Err(m) => j1.(log := Upsert(j1.log, CollectingLabel, Failed, Some(m)))
    case Ok(r) =>
      if r.success && r.thumbnails.Some? && |r.thumbnails.value| > 0 then
        var j2 := CollectFrom(j1, Generated(r.thumbnails.value, initial), env.fetch, 0);
        j2.(log := Upsert(j2.log, CollectingLabel, Completed, None))
      else j1.(log := Upsert(j1.log, CollectingLabel, Failed, Some(NoThumbnailsMessage)))
  }

  /** Steps 5 to 7 after the last prompt: wait, collect, and move the cursor past the prompts. */
  function FinishRun(j: EditJob, env: EditEnv, initial: nat): EditJob {
    CollectStep(WaitStep(j, env, initial), env, initial).(currentIndex := |j.prompts|)
  }

  /** The run once edit mode is confirmed: the prompt loop, then either the halt or the finishing steps. */
  function VerifiedRun(j: EditJob, env: EditEnv): EditJob {
    var j1 := j.(log := Upsert(j.log, EditModeLabel, Completed, None));
    match PromptsFrom(j1, env, j1.currentIndex)
    case Halted(h) => h
    case Finished(f) => ApplyControls(FinishRun(f, env, InitialCount(env.setup.thumbnails)), env.after)
  }

  /** A set-up failure: logged under `name` and kept as the run's error. */
  function SetupFailed(j: EditJob, name: string, message: string): EditJob {
    j.(log := Upsert(j.log, name, Failed, Some(message)), error := Some(message))
  }

  /**
   * The body of the outer `try`: an unreachable content script or a page outside edit mode
   * ends the run under "Setup"; a rejected `checkEditMode` reaches the outer `catch`.
   */
  function CheckedRun(j: EditJob, env: EditEnv): EditJob {
    if !Reachable(env.setup.probe) then SetupFailed(j, SetupLabel, NotAvailableMessage)
    else match env.setup.checkEditMode
      case Err(m) => SetupFailed(j, UnexpectedLabel, m)
      case Ok(r) => if !r.inEditMode then SetupFailed(j, SetupLabel, NotInEditModeMessage) else VerifiedRun(j, env)
  }

  /** `processImageEditQueue`: the guard, then the run, whose `finally` always clears `isProcessing`. */
  function EditRun(j: EditJob, env: EditEnv): EditJob {
    if !j.isProcessing || j.isPaused || !HasTab(j.currentTabId) then j
    else CheckedRun(ApplyControls(j, env.setup.during), env).(isProcessing := false)
  }

  // ---------------------------------------------------------------------------
  // The `imageEditState` record and its handlers.
  // ---------------------------------------------------------------------------

  class EditQueue {
    var prompts: seq<string>
    var isProcessing: bool
    var isPaused: bool
    var currentIndex: nat
    var delay: int
    var log: seq<LogEntry>
    var currentTabId: Option<int>
    var generatedImages: seq<GeneratedImage>
    var downloadFolder: string
    var error: Option<string>

    function Snapshot(): EditJob
      reads this
    {
      EditJob(prompts, isProcessing, isPaused, currentIndex, delay, log, currentTabId,
              generatedImages, downloadFolder, error)
    }

    constructor ()
      ensures Snapshot() == InitialEditJob()
    {
      prompts := [];
      isProcessing := false;
      isPaused := false;
      currentIndex := 0;
      delay := 5;
      log := [];
      currentTabId := None;
      generatedImages := [];
      downloadFolder := "grok-edits";
      error := None;
    }

    /** `getImageEditState`. */
    method GetImageEditState() returns (view: EditStateView)
      ensures view.generatedImages == |generatedImages|
      ensures view == StateView(Snapshot())
    {
      view := EditStateView(prompts, isProcessing, isPaused, currentIndex, delay, log,
        |generatedImages|, error);
    }

    /** `startImageEdit`: overwrite the record, whatever run was active, then run the queue. */
    method StartImageEdit(msg: StartEditMessage, env: EditEnv)
      modifies this
      ensures Snapshot() == EditRun(StartEdit(msg), env)
    {
      prompts := msg.prompts;
      isProcessing := true;
      isPaused := false;
      currentIndex := 0;
      delay := if msg.delay.Some? && msg.delay.value != 0 then msg.delay.value else 5;
      log := [];
      currentTabId := msg.tabId;
      generatedImages := [];
      downloadFolder := OrElse(msg.downloadFolder, "grok-edits");
      error := None;
      assert Snapshot() == StartEdit(msg);
      ProcessEditQueue(env);
    }

    /** `pauseImageEdit`. */
    method PauseImageEdit()
      modifies this
      ensures Snapshot() == PauseEdit(old(Snapshot()))
    {
      isPaused := true;
    }

    /** `resumeImageEdit`: clear the pause, then run the queue. */
    method ResumeImageEdit(env: EditEnv)
      modifies this
      ensures Snapshot() == EditRun(ResumeEdit(old(Snapshot())), env)
    {
      isPaused := false;
      ProcessEditQueue(env);
    }

    /** `stopImageEdit`. */
    method StopImageEdit()
      modifies this
      ensures Snapshot() == StopEdit(old(Snapshot()))
    {
      isProcessing := false;
      isPaused := false;
    }

    /** `getEditGeneratedImages`: each image's position, file name and URL. */
    method GetEditGeneratedImages() returns (images: seq<ImageListing>)
      ensures |images| == |generatedImages|
      ensures forall i :: 0 <= i < |images| ==>
        images[i] == ImageListing(i, generatedImages[i].filename, generatedImages[i].url)
    {
      var gi := generatedImages;
      images := seq(|gi|, i requires 0 <= i < |gi| => ImageListing(i, gi[i].filename, gi[i].url));
    }

    /** `clearEditGeneratedImages`. */
    method ClearEditGeneratedImages()
      modifies this
      ensures Snapshot() == old(Snapshot()).(generatedImages := [])
    {
      generatedImages := [];
    }

    /** `addEditLogEntry`. */
    method AddEditLogEntry(name: string, status: Status, err: Option<string>)
      modifies this`log
      ensures log == Upsert(old(log), name, status, err)
    {
      var existing := FindIndex(log, name);
      if existing >= 0 {
        log := log[existing := LogEntry(name, status, err)];
      } else {
        log := log + [LogEntry(name, status, err)];
      }
    }

    /** `updateEditLogEntry`: the status and error of the entry found are written in place, or an entry is added. */
    method UpdateEditLogEntry(name: string, status: Status, err: Option<string>)
      modifies this`log
      ensures log == Upsert(old(log), name, status, err)
    {
      var existing := FindIndex(log, name);
      if existing >= 0 {
        log := log[existing := log[existing].(status := status, error := err)];
      } else {
        AddEditLogEntry(name, status, err);
      }
    }

    /** The pause and stop handlers that ran while a content-script call was awaited. */
    method HandleControls(cs: seq<Control>)
      modifies this
      ensures Snapshot() == ApplyControls(old(Snapshot()), cs)
    {
      var k := 0;
      while k < |cs|
        invariant 0 <= k <= |cs|
        invariant Snapshot() == ApplyControls(old(Snapshot()), cs[..k])
      {
        match cs[k] {
          case PauseCommand => PauseImageEdit();
          case StopCommand => StopImageEdit();
        }
        assert cs[..k + 1][..k] == cs[..k];
        k := k + 1;
      }
      assert cs[..|cs|] == cs;
    }

    /** The body of the prompt loop for prompt `i`; a rejected call is logged and the loop goes on. */
    method SubmitPrompt(i: nat, pe: PromptEnv)
      requires i < |prompts|
      modifies this
      ensures Snapshot() == StepPrompt(old(Snapshot()), i, pe)
    {
      var prompt := prompts[i];
      var name := PromptLabel(i, prompt);
      ghost var log0 := log;
      AddEditLogEntry(name, Processing, None);
      currentIndex := i;
      var failure: Option<string> := None;
      if i > 0 && pe.clickReference.Err? {
        failure := Some(pe.clickReference.message);
      } else if pe.enterPrompt.Err? {
        failure := Some(pe.enterPrompt.message);
      } else if pe.submitPrompt.Err? {
        failure := Some(pe.submitPrompt.message);
      }
      if failure.None? {
        UpdateEditLogEntry(name, Processing, None);
      } else {
        UpdateEditLogEntry(name, Failed, failure);
      }
      ghost var e := PromptEntry(i, prompt, pe);
      UpsertOverwrite(log0, name, Processing, None, e.status, e.error);
      HandleControls(pe.during);
    }

    /** The prompt loop from the cursor; `halted` tells whether it suspended before the last prompt. */
    method RunPrompts(env: EditEnv) returns (halted: bool)
      modifies this
      ensures var r := PromptsFrom(old(Snapshot()), env, old(currentIndex));
        Snapshot() == r.job && halted == r.Halted?
    {
      var i: nat := currentIndex;
      ghost var target := PromptsFrom(Snapshot(), env, i);
      while i < |prompts| && isProcessing && !isPaused
        invariant PromptsFrom(Snapshot(), env, i) == target
        decreases |prompts| - i
      {
        SubmitPrompt(i, env.steps(i));
        i := i + 1;
      }
      halted := i < |prompts|;
      if halted {
        currentIndex := i;
      }
    }

    /** Step 5. */
    method WaitForGenerations(env: EditEnv, initial: nat)
      modifies this
      ensures Snapshot() == WaitStep(old(Snapshot()), env, initial)
    {
      var expected := initial + 2 * |prompts|;
      AddEditLogEntry(WaitingLabel, Processing, None);
      match env.waitForGeneration(expected) {
        case Ok(_) => UpdateEditLogEntry(WaitingLabel, Completed, None);
        case Err(m) => UpdateEditLogEntry(WaitingLabel, Failed, Some(m));
      }
    }

    /** The collection loop over the prompts. */
    method CollectGenerated(gen: seq<string>, fetch: nat -> Outcome)
      modifies this
      ensures Snapshot() == CollectFrom(old(Snapshot()), gen, fetch, 0)
    {
      var p: nat := 0;
      ghost var target := CollectFrom(Snapshot(), gen, fetch, 0);
      while p < |prompts|
        invariant prompts == old(prompts)
        invariant CollectFrom(Snapshot(), gen, fetch, p) == target
        decreases |prompts| - p
      {
        ghost var before := Snapshot();
        if 2 * p < |gen| {
          CollectImage(p, gen[2 * p], fetch);
          assert Snapshot() == CollectOne(before, p, gen[2 * p], fetch);
        }
        p := p + 1;
      }
    }

    /** The image of prompt `p`, from thumbnail `src`, fetched as a data URL when the fetch succeeds. */
    method CollectImage(p: nat, src: string, fetch: nat -> Outcome)
      requires p < |prompts|
      modifies this
      ensures Snapshot() == CollectOne(old(Snapshot()), p, src, fetch)
    {
      var url := src;
      match fetch(p) {
        case Ok(r) =>
          if r.success && r.dataUrl != [] {
            url := r.dataUrl;
          }
        case Err(_) =>
      }
      assert url == FetchedUrl(src, fetch(p));
      var image := GeneratedImage(EditImageFilename(p, prompts[p]), url, prompts[p]);
      var name := PromptLabel(p, prompts[p]);
      ghost var j0 := Snapshot();
      generatedImages := generatedImages + [image];
      assert Snapshot() == j0.(generatedImages := j0.generatedImages + [image]);
      UpdateEditLogEntry(name, Completed, None);
    }

    /** Step 6. */
    method CollectImages(env: EditEnv, initial: nat)
      modifies this
      ensures Snapshot() == CollectStep(old(Snapshot()), env, initial)
    {
      AddEditLogEntry(CollectingLabel, Processing, None);
      match env.thumbnails {
        case Err(m) =>
          UpdateEditLogEntry(CollectingLabel, Failed, Some(m));
        case Ok(r) =>
          if r.success && r.thumbnails.Some? && |r.thumbnails.value| > 0 {
            var all := r.thumbnails.value;
            var gen := if initial <= |all| then all[initial..] else [];
            CollectGenerated(gen, env.fetch);
            UpdateEditLogEntry(CollectingLabel, Completed, None);
          } else {
            UpdateEditLogEntry(CollectingLabel, Failed, Some(NoThumbnailsMessage));
          }
      }
    }

    /** The run once edit mode is confirmed. */
    method RunVerified(env: EditEnv)
      modifies this
      ensures Snapshot() == VerifiedRun(old(Snapshot()), env)
    {
      ghost var j0 := Snapshot();
      AddEditLogEntry(EditModeLabel, Completed, None);
      var initial := InitialCount(env.setup.thumbnails);
      ghost var j1 := Snapshot();
      assert j1 == j0.(log := Upsert(j0.log, EditModeLabel, Completed, None));
      ghost var loop := PromptsFrom(j1, env, j1.currentIndex);
      var halted := RunPrompts(env);
      assert Snapshot() == loop.job && halted == loop.Halted?;
      if !halted {
        FinishEdit(env, initial);
        HandleControls(env.after);
      }
    }

    /** Steps 5 to 7. */
    method FinishEdit(env: EditEnv, initial: nat)
      modifies this
      ensures Snapshot() == FinishRun(old(Snapshot()), env, initial)
    {
      ghost var f := Snapshot();
      WaitForGenerations(env, initial);
      ghost var w := Snapshot();
      assert w == WaitStep(f, env, initial);
      CollectImages(env, initial);
      currentIndex := |prompts|;
    }

    /** `processImageEditQueue`. */
    method ProcessEditQueue(env: EditEnv)
      modifies this
      ensures Snapshot() == EditRun(old(Snapshot()), env)
    {
      if !isProcessing || isPaused || !HasTab(currentTabId) {
        return;
      }
      HandleControls(env.setup.during);
      if !Reachable(env.setup.probe) {
        AddEditLogEntry(SetupLabel, Failed, Some(NotAvailableMessage));
        error := Some(NotAvailableMessage);
      } else {
        match env.setup.checkEditMode {
          case Err(m) =>
            error := Some(m);
            AddEditLogEntry(UnexpectedLabel, Failed, Some(m));
          case Ok(r) =>
            if !r.inEditMode {
              AddEditLogEntry(SetupLabel, Failed, Some(NotInEditModeMessage));
              error := Some(NotInEditModeMessage);
            } else {
              RunVerified(env);
            }
        }
      }
      isProcessing := false;
    }
  }
}
