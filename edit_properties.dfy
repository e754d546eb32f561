/**
 * Properties of the image-edit run, proved about the functions of module `Edit` that the
 * methods of `Edit.EditQueue` are proved to follow.
 */
module EditProperties {
  import opened Wrappers
  import opened Text
  import opened Messaging
  import opened Log
  import opened Filenames
  import opened Edit
  import opened Seqs

  // ---------------------------------------------------------------------------
  // Log labels.
  // ---------------------------------------------------------------------------

  /** The label of prompt `i` is "Prompt ", the number `i + 1`, and a tail starting with ':'. */
  lemma PromptLabelParts(i: nat, prompt: string) returns (tail: string)
    ensures PromptLabel(i, prompt) == "Prompt " + (DecimalString(i + 1) + tail)
    ensures tail != [] && tail[0] == ':'
  {
    var t := Take(prompt, 40);
    var e := if |prompt| > 40 then "..." else "";
    tail := ": \"" + t + e + "\"";
    assert PromptLabel(i, prompt) == "Prompt " + DecimalString(i + 1) + tail;
  }

  /** A number followed by a tail starting with ':' determines the number. */
  lemma NumberBeforeColon(m: nat, x: string, n: nat, y: string)
    requires x != [] && x[0] == ':' && y != [] && y[0] == ':'
    requires DecimalString(m) + x == DecimalString(n) + y
    ensures m == n
  {
    var dm, dn := DecimalString(m), DecimalString(n);
    LeadingDigitsOf(dm, x);
    LeadingDigitsOf(dn, y);
    assert dm == (dm + x)[..|dm|];
    assert dn == (dn + y)[..|dn|];
    DecimalRoundTrip(m);
    DecimalRoundTrip(n);
  }

  /** Labels of different prompt positions never coincide, whatever the prompts. */
  lemma PromptLabelsDistinct(i: nat, a: string, k: nat, b: string)
    requires PromptLabel(i, a) == PromptLabel(k, b)
    ensures i == k
  {
    var x := PromptLabelParts(i, a);
    var y := PromptLabelParts(k, b);
    var p := "Prompt ";
    assert (p + (DecimalString(i + 1) + x))[|p|..] == DecimalString(i + 1) + x;
    assert (p + (DecimalString(k + 1) + y))[|p|..] == DecimalString(k + 1) + y;
    NumberBeforeColon(i + 1, x, k + 1, y);
  }

  /** The fixed labels of the run. */
  predicate IsFixedLabel(name: string) {
    name == SetupLabel || name == EditModeLabel || name == WaitingLabel
    || name == CollectingLabel || name == UnexpectedLabel
  }

  /** A prompt label is never one of the fixed labels: it starts with 'P', they do not. */
  lemma PromptLabelNotFixed(i: nat, prompt: string)
    ensures !IsFixedLabel(PromptLabel(i, prompt))
  {
    var tail := PromptLabelParts(i, prompt);
    assert PromptLabel(i, prompt)[0] == 'P';
  }

  /** No prompt from position `i` on has `name` as its label. */
  predicate NoPromptLabel(prompts: seq<string>, i: nat, name: string) {
    forall k :: i <= k < |prompts| ==> PromptLabel(k, prompts[k]) != name
  }

  lemma FixedNotPromptLabel(prompts: seq<string>, i: nat, name: string)
    requires IsFixedLabel(name)
    ensures NoPromptLabel(prompts, i, name)
  {
    forall k | i <= k < |prompts| {
      PromptLabelNotFixed(k, prompts[k]);
    }
  }

  /** The label of prompt `k` is not used by any later position. */
  lemma OwnLabelOnly(prompts: seq<string>, k: nat, i: nat)
    requires k < i && k < |prompts|
    ensures NoPromptLabel(prompts, i, PromptLabel(k, prompts[k]))
  {
    forall m | i <= m < |prompts| ensures PromptLabel(m, prompts[m]) != PromptLabel(k, prompts[k]) {
      if PromptLabel(m, prompts[m]) == PromptLabel(k, prompts[k]) {
        PromptLabelsDistinct(m, prompts[m], k, prompts[k]);
      }
    }
  }

  /** A prompt of at most 40 characters appears whole in its label, without "...". */
  lemma ShortPromptLabel(i: nat, prompt: string)
    requires |prompt| <= 40
    ensures PromptLabel(i, prompt) == "Prompt " + DecimalString(i + 1) + ": \"" + prompt + "\""
  {
    assert Take(prompt, 40) == prompt;
  }

  /** A longer prompt is cut to its first 40 characters, followed by "...". */
  lemma LongPromptLabel(i: nat, prompt: string)
    requires |prompt| > 40
    ensures PromptLabel(i, prompt) == "Prompt " + DecimalString(i + 1) + ": \"" + prompt[..40] + "...\""
  {
    assert Take(prompt, 40) == prompt[..40];
  }

  // ---------------------------------------------------------------------------
  // The start of a run.
  // ---------------------------------------------------------------------------

  /** `startImageEdit` resets the record whatever it held, with the delay and folder defaults. */
  lemma EditStartResets(msg: StartEditMessage)
    ensures var s := StartEdit(msg);
      && s.prompts == msg.prompts && s.isProcessing && !s.isPaused
      && s.currentIndex == 0 && s.log == [] && s.generatedImages == [] && s.error.None?
      && s.currentTabId == msg.tabId
      && s.delay == (if msg.delay.Some? && msg.delay.value != 0 then msg.delay.value else 5)
      && s.downloadFolder == (if msg.downloadFolder.Some? && msg.downloadFolder.value != [] then msg.downloadFolder.value else "grok-edits")
  {
  }

  // ---------------------------------------------------------------------------
  // What a run keeps.
  // ---------------------------------------------------------------------------

  /** The same prompts, delay, tab and download folder. */
  predicate SameSettings(a: EditJob, b: EditJob) {
    a.prompts == b.prompts && a.delay == b.delay && a.currentTabId == b.currentTabId
    && a.downloadFolder == b.downloadFolder
  }

  lemma {:induction false} PromptsFromSettings(j: EditJob, env: EditEnv, i: nat)
    ensures SameSettings(j, PromptsFrom(j, env, i).job)
    ensures PromptsFrom(j, env, i).job.generatedImages == j.generatedImages
    ensures PromptsFrom(j, env, i).job.error == j.error
    decreases |j.prompts| - i
  {
    if i < |j.prompts| && j.isProcessing && !j.isPaused {
      PromptsFromSettings(StepPrompt(j, i, env.steps(i)), env, i + 1);
    }
  }

  lemma {:induction false} CollectFromSettings(j: EditJob, gen: seq<string>, fetch: nat -> Outcome, p: nat)
    ensures SameSettings(j, CollectFrom(j, gen, fetch, p))
    ensures CollectFrom(j, gen, fetch, p).error == j.error
    ensures CollectFrom(j, gen, fetch, p).isPaused == j.isPaused
    decreases |j.prompts| - p
  {
    if p < |j.prompts| {
      if 2 * p < |gen| {
        CollectFromSettings(CollectOne(j, p, gen[2 * p], fetch), gen, fetch, p + 1);
      } else {
        CollectFromSettings(j, gen, fetch, p + 1);
      }
    }
  }

  lemma CollectStepSettings(j: EditJob, env: EditEnv, initial: nat)
    ensures SameSettings(j, CollectStep(j, env, initial))
    ensures CollectStep(j, env, initial).error == j.error
    ensures CollectStep(j, env, initial).isPaused == j.isPaused
  {
    var c := j.(log := Upsert(j.log, CollectingLabel, Processing, None));
    match env.thumbnails
    case Err(_) =>
    case Ok(r) =>
      if r.success && r.thumbnails.Some? && |r.thumbnails.value| > 0 {
        CollectFromSettings(c, Generated(r.thumbnails.value, initial), env.fetch, 0);
      }
  }

  lemma VerifiedRunSettings(j: EditJob, env: EditEnv)
    ensures SameSettings(j, VerifiedRun(j, env))
    ensures VerifiedRun(j, env).error == j.error
  {
    var j1 := j.(log := Upsert(j.log, EditModeLabel, Completed, None));
    PromptsFromSettings(j1, env, j1.currentIndex);
    match PromptsFrom(j1, env, j1.currentIndex)
    case Halted(_) =>
    case Finished(f) =>
      var initial := InitialCount(env.setup.thumbnails);
      CollectStepSettings(WaitStep(f, env, initial), env, initial);
  }

  /**
   * A run never changes the prompts, delay, tab or folder; once it passes its guard it
   * always ends with `isProcessing` cleared, and a run that does not pass it changes nothing.
   */
  lemma EditRunSettles(j: EditJob, env: EditEnv)
    ensures var r := EditRun(j, env);
      && SameSettings(j, r)
      && (j.isProcessing && !j.isPaused && HasTab(j.currentTabId) ==> !r.isProcessing)
      && (!(j.isProcessing && !j.isPaused && HasTab(j.currentTabId)) ==> r == j)
  {
    var j0 := ApplyControls(j, env.setup.during);
    CheckedRunSettings(j0, env);
    assert SameSettings(j, j0);
  }

  lemma CheckedRunSettings(j: EditJob, env: EditEnv)
    ensures SameSettings(j, CheckedRun(j, env))
  {
    if Reachable(env.setup.probe) && env.setup.checkEditMode.Ok? && env.setup.checkEditMode.response.inEditMode {
      VerifiedRunSettings(j, env);
      assert CheckedRun(j, env) == VerifiedRun(j, env);
    }
  }

  // ---------------------------------------------------------------------------
  // Log entries a run leaves alone.
  // ---------------------------------------------------------------------------

  lemma {:induction false} PromptsFromOthers(j: EditJob, env: EditEnv, i: nat, name: string)
    requires NoPromptLabel(j.prompts, i, name)
    ensures Lookup(PromptsFrom(j, env, i).job.log, name) == Lookup(j.log, name)
    decreases |j.prompts| - i
  {
    if i < |j.prompts| && j.isProcessing && !j.isPaused {
      var e := PromptEntry(i, j.prompts[i], env.steps(i));
      assert e.name == PromptLabel(i, j.prompts[i]);
      UpsertOthers(j.log, e.name, e.status, e.error, name);
      PromptsFromOthers(StepPrompt(j, i, env.steps(i)), env, i + 1, name);
    }
  }

  lemma {:induction false} CollectFromOthers(j: EditJob, gen: seq<string>, fetch: nat -> Outcome, p: nat, name: string)
    requires NoPromptLabel(j.prompts, p, name)
    ensures Lookup(CollectFrom(j, gen, fetch, p).log, name) == Lookup(j.log, name)
    decreases |j.prompts| - p
  {
    if p < |j.prompts| {
      if 2 * p < |gen| {
        UpsertOthers(j.log, PromptLabel(p, j.prompts[p]), Completed, None, name);
        CollectFromOthers(CollectOne(j, p, gen[2 * p], fetch), gen, fetch, p + 1, name);
      } else {
        CollectFromOthers(j, gen, fetch, p + 1, name);
      }
    }
  }

  /** Steps 5 to 7 touch only the prompt labels and the "Waiting…" and "Collecting…" entries. */
  lemma FinishRunOthers(f: EditJob, env: EditEnv, initial: nat, name: string)
    requires NoPromptLabel(f.prompts, 0, name) && name != WaitingLabel && name != CollectingLabel
    ensures Lookup(FinishRun(f, env, initial).log, name) == Lookup(f.log, name)
  {
    var w := WaitStep(f, env, initial);
    UpsertOthers(f.log, WaitingLabel, Processing, None, name);
    var l1 := Upsert(f.log, WaitingLabel, Processing, None);
    UpsertOthers(l1, WaitingLabel, Completed, None, name);
    if env.waitForGeneration(ExpectedCount(initial, f.prompts)).Err? {
      UpsertOthers(l1, WaitingLabel, Failed, Some(env.waitForGeneration(ExpectedCount(initial, f.prompts)).message), name);
    }
    assert Lookup(w.log, name) == Lookup(f.log, name);
    CollectStepOthers(w, env, initial, name);
  }

  lemma CollectStepOthers(j: EditJob, env: EditEnv, initial: nat, name: string)
    requires NoPromptLabel(j.prompts, 0, name) && name != CollectingLabel
    ensures Lookup(CollectStep(j, env, initial).log, name) == Lookup(j.log, name)
  {
    var c := j.(log := Upsert(j.log, CollectingLabel, Processing, None));
    UpsertOthers(j.log, CollectingLabel, Processing, None, name);
    match env.thumbnails
    case Err(m) =>
      UpsertOthers(c.log, CollectingLabel, Failed, Some(m), name);
    case Ok(r) =>
      if r.success && r.thumbnails.Some? && |r.thumbnails.value| > 0 {
        var c2 := CollectFrom(c, Generated(r.thumbnails.value, initial), env.fetch, 0);
        CollectFromOthers(c, Generated(r.thumbnails.value, initial), env.fetch, 0, name);
        UpsertOthers(c2.log, CollectingLabel, Completed, None, name);
      } else {
        UpsertOthers(c.log, CollectingLabel, Failed, Some(NoThumbnailsMessage), name);
      }
  }

  /** Once edit mode is confirmed, the "Edit mode verified" entry stays 'completed' whatever follows. */
  lemma VerifiedRunEditMode(j: EditJob, env: EditEnv)
    ensures Lookup(VerifiedRun(j, env).log, EditModeLabel) == Some(LogEntry(EditModeLabel, Completed, None))
  {
    var j1 := j.(log := Upsert(j.log, EditModeLabel, Completed, None));
    UpsertFacts(j.log, EditModeLabel, Completed, None);
    FixedNotPromptLabel(j.prompts, 0, EditModeLabel);
    FixedNotPromptLabel(j.prompts, j1.currentIndex, EditModeLabel);
    PromptsFromOthers(j1, env, j1.currentIndex, EditModeLabel);
    PromptsFromSettings(j1, env, j1.currentIndex);
    match PromptsFrom(j1, env, j1.currentIndex)
    case Halted(_) =>
    case Finished(f) =>
      FinishRunOthers(f, env, InitialCount(env.setup.thumbnails), EditModeLabel);
  }

  // ---------------------------------------------------------------------------
  // Set-up.
  // ---------------------------------------------------------------------------

  /**
   * The entry a failed set-up is logged with: an unreachable content script or a page not in
   * edit mode under "Setup", a rejected `checkEditMode` under "Unexpected error"; `None` when
   * set-up passes.
   */
  function SetupFailureEntry(s: EditSetupEnv): Option<LogEntry> {
    if !Reachable(s.probe) then Some(LogEntry(SetupLabel, Failed, Some(NotAvailableMessage)))
    else match s.checkEditMode
      case Err(m) => Some(LogEntry(UnexpectedLabel, Failed, Some(m)))
      case Ok(r) => if r.inEditMode then None else Some(LogEntry(SetupLabel, Failed, Some(NotInEditModeMessage)))
  }

  /**
   * A failed set-up ends the run: its message becomes the run's error and is logged, no
   * prompt is submitted, and apart from the flags nothing else of the record changes.
   */
  lemma SetupFailureEndsRun(j: EditJob, env: EditEnv)
    requires j.isProcessing && !j.isPaused && HasTab(j.currentTabId)
    requires SetupFailureEntry(env.setup).Some?
    ensures var e := SetupFailureEntry(env.setup).value;
      var r := EditRun(j, env);
      && !r.isProcessing
      && r.error == e.error
      && Lookup(r.log, e.name) == Some(e)
      && (forall name :: name != e.name ==> Lookup(r.log, name) == Lookup(j.log, name))
      && r.(isProcessing := j.isProcessing, isPaused := j.isPaused, log := j.log, error := j.error) == j
  {
    var e := SetupFailureEntry(env.setup).value;
    var j0 := ApplyControls(j, env.setup.during);
    assert CheckedRun(j0, env) == SetupFailed(j0, e.name, e.error.value);
    UpsertFacts(j.log, e.name, Failed, e.error);
  }

  /** A set-up that passes leaves the error as it was and the "Edit mode verified" entry 'completed'. */
  lemma SetupPassed(j: EditJob, env: EditEnv)
    requires j.isProcessing && !j.isPaused && HasTab(j.currentTabId)
    requires SetupFailureEntry(env.setup).None?
    ensures var r := EditRun(j, env);
      && r.error == j.error
      && Lookup(r.log, EditModeLabel) == Some(LogEntry(EditModeLabel, Completed, None))
  {
    var j0 := ApplyControls(j, env.setup.during);
    assert CheckedRun(j0, env) == VerifiedRun(j0, env);
    VerifiedRunSettings(j0, env);
    VerifiedRunEditMode(j0, env);
  }

  // ---------------------------------------------------------------------------
  // Pausing and stopping.
  // ---------------------------------------------------------------------------

  /** No popup command arrives while the prompts `i .. n-1` are handled. */
  predicate QuietSteps(env: EditEnv, i: nat, n: nat)
    decreases n - i
  {
    i >= n || (env.steps(i).during == [] && QuietSteps(env, i + 1, n))
  }

  /**
   * A pause or a stop that arrives while prompt `n` is handled (and nothing before it)
   * halts the prompt loop at the next boundary, with the cursor there and no image collected.
   */
  lemma {:induction false} ControlHaltsPrompts(j: EditJob, env: EditEnv, i: nat, n: nat, c: Control)
    requires i <= n && n + 1 < |j.prompts|
    requires j.isProcessing && !j.isPaused
    requires QuietSteps(env, i, n) && env.steps(n).during == [c]
    ensures var r := PromptsFrom(j, env, i);
      && r.Halted?
      && r.job.currentIndex == n + 1
      && r.job.isPaused == (c == PauseCommand)
    decreases n - i
  {
    var s := StepPrompt(j, i, env.steps(i));
    if i < n {
      ControlHaltsPrompts(s, env, i + 1, n, c);
    } else {
      assert env.steps(n).during[..0] == [];
      assert PromptsFrom(j, env, i) == PromptsFrom(s, env, n + 1);
    }
  }

  /**
   * A run whose set-up passes and in which a pause or a stop arrives during prompt `n`, not
   * the last: the run ends there, with `isProcessing` cleared by the `finally` and the cursor
   * at the next prompt; neither the wait nor the collection is logged and no image is kept.
   * Even after a pause, a later resume then leaves the record as it is: `processImageEditQueue`
   * returns at its guard, so a paused edit run cannot be continued.
   */
  lemma ControlEndsEditRun(msg: StartEditMessage, env: EditEnv, n: nat, c: Control, later: EditEnv)
    requires HasTab(msg.tabId) && n + 1 < |msg.prompts|
    requires SetupFailureEntry(env.setup).None? && env.setup.during == []
    requires QuietSteps(env, 0, n) && env.steps(n).during == [c]
    ensures var r := EditRun(StartEdit(msg), env);
      && !r.isProcessing
      && r.isPaused == (c == PauseCommand)
      && r.currentIndex == n + 1
      && r.prompts == msg.prompts && r.error == None
      && r.generatedImages == []
      && WaitingLabel !in Labels(r.log) && CollectingLabel !in Labels(r.log)
      && EditRun(ResumeEdit(r), later) == ResumeEdit(r)
  {
    var j := StartEdit(msg);
    assert CheckedRun(j, env) == VerifiedRun(j, env);
    var j1 := j.(log := Upsert(j.log, EditModeLabel, Completed, None));
    assert j1.log == [LogEntry(EditModeLabel, Completed, None)];
    ControlHaltsPrompts(j1, env, 0, n, c);
    PromptsFromSettings(j1, env, 0);
    FixedNotPromptLabel(j.prompts, 0, WaitingLabel);
    FixedNotPromptLabel(j.prompts, 0, CollectingLabel);
    PromptsFromOthers(j1, env, 0, WaitingLabel);
    PromptsFromOthers(j1, env, 0, CollectingLabel);
  }

  // ---------------------------------------------------------------------------
  // Collection.
  // ---------------------------------------------------------------------------

  /** How many prompts get an image: those `p` whose thumbnail `2p` exists among `g` generated ones. */
  function CollectedCount(n: nat, g: nat): nat {
    if n < (g + 1) / 2 then n else (g + 1) / 2
  }

  /** Prompt `p` gets an image exactly when `p` is below the count. */
  lemma CollectedCountMeans(n: nat, g: nat, p: nat)
    ensures p < CollectedCount(n, g) <==> p < n && 2 * p < g
  {
  }

  /** The image collected for prompt `k`: its numbered name, the first of its two thumbnails, and its prompt. */
  function ImageAt(prompts: seq<string>, gen: seq<string>, fetch: nat -> Outcome, k: nat): GeneratedImage
    requires k < |prompts| && 2 * k < |gen|
  {
    GeneratedImage(EditImageFilename(k, prompts[k]), FetchedUrl(gen[2 * k], fetch(k)), prompts[k])
  }

  /** Prompt `k`'s image, for every prompt that gets one. */
  function ImageFn(prompts: seq<string>, gen: seq<string>, fetch: nat -> Outcome): nat --> GeneratedImage {
    (k: nat) requires k < CollectedCount(|prompts|, |gen|) =>
      if k < |prompts| && 2 * k < |gen| then ImageAt(prompts, gen, fetch, k) else GeneratedImage([], [], [])
  }

  /** All images a collection over `gen` yields, in prompt order. */
  function CollectedImages(prompts: seq<string>, gen: seq<string>, fetch: nat -> Outcome): (r: seq<GeneratedImage>)
    ensures |r| == CollectedCount(|prompts|, |gen|) <= |prompts|
  {
    BuildLength(ImageFn(prompts, gen, fetch), 0, CollectedCount(|prompts|, |gen|));
    Build(ImageFn(prompts, gen, fetch), 0, CollectedCount(|prompts|, |gen|))
  }

  /**
   * The collection yields one image per prompt for as many prompts as there are generated
   * thumbnails at even positions: image `k` is prompt `k`'s, made from thumbnail `2k`.
   */
  lemma CollectedImagesShape(prompts: seq<string>, gen: seq<string>, fetch: nat -> Outcome)
    ensures var all := CollectedImages(prompts, gen, fetch);
      forall k :: 0 <= k < |all| ==> k < |prompts| && 2 * k < |gen| && all[k] == ImageAt(prompts, gen, fetch, k)
  {
    var all := CollectedImages(prompts, gen, fetch);
    forall k | 0 <= k < |all|
      ensures k < |prompts| && 2 * k < |gen| && all[k] == ImageAt(prompts, gen, fetch, k)
    {
      CollectedCountMeans(|prompts|, |gen|, k);
      BuildAt(ImageFn(prompts, gen, fetch), 0, CollectedCount(|prompts|, |gen|), k);
    }
  }

  /** Taking thumbnail `2p` for prompt `p` is one loop step that appends prompt `p`'s image. */
  lemma CollectFromTake(j: EditJob, gen: seq<string>, fetch: nat -> Outcome, p: nat)
    requires p < |j.prompts| && 2 * p < |gen|
    ensures var s := CollectOne(j, p, gen[2 * p], fetch);
      && CollectFrom(j, gen, fetch, p) == CollectFrom(s, gen, fetch, p + 1)
      && s.prompts == j.prompts
      && s.generatedImages == j.generatedImages + [ImageAt(j.prompts, gen, fetch, p)]
  {
  }

  /** Past the last generated thumbnail, the collection loop changes nothing. */
  lemma {:induction false} CollectFromSkips(j: EditJob, gen: seq<string>, fetch: nat -> Outcome, p: nat)
    requires 2 * p >= |gen|
    ensures CollectFrom(j, gen, fetch, p) == j
    decreases |j.prompts| - p
  {
    if p < |j.prompts| {
      CollectFromSkips(j, gen, fetch, p + 1);
    }
  }

  /** The collection loop from prompt `p` appends exactly the images of the prompts from `p` on. */
  lemma {:induction false} CollectFromImages(j: EditJob, gen: seq<string>, fetch: nat -> Outcome, p: nat)
    requires p <= CollectedCount(|j.prompts|, |gen|)
    ensures CollectFrom(j, gen, fetch, p).generatedImages
         == j.generatedImages + Build(ImageFn(j.prompts, gen, fetch), p, CollectedCount(|j.prompts|, |gen|))
    decreases |j.prompts| - p
  {
    var f := ImageFn(j.prompts, gen, fetch);
    var n := CollectedCount(|j.prompts|, |gen|);
    CollectedCountMeans(|j.prompts|, |gen|, p);
    if p < n {
      var s := CollectOne(j, p, gen[2 * p], fetch);
      CollectFromTake(j, gen, fetch, p);
      assert f(p) == ImageAt(j.prompts, gen, fetch, p);
      calc {
        CollectFrom(j, gen, fetch, p).generatedImages;
        CollectFrom(s, gen, fetch, p + 1).generatedImages;
        { CollectFromImages(s, gen, fetch, p + 1); }
        (j.generatedImages + [f(p)]) + Build(f, p + 1, n);
        { AppendAssoc(j.generatedImages, [f(p)], Build(f, p + 1, n)); }
        j.generatedImages + ([f(p)] + Build(f, p + 1, n));
        { BuildStep(f, p, n); }
        j.generatedImages + Build(f, p, n);
      }
    } else if p < |j.prompts| {
      CollectFromSkips(j, gen, fetch, p);
    }
  }

  /** The collected images have pairwise different file names. */
  lemma CollectedNamesDistinct(prompts: seq<string>, gen: seq<string>, fetch: nat -> Outcome)
    ensures var all := CollectedImages(prompts, gen, fetch);
      forall a, b :: 0 <= a < b < |all| ==> all[a].filename != all[b].filename
  {
    var all := CollectedImages(prompts, gen, fetch);
    CollectedImagesShape(prompts, gen, fetch);
    forall a, b | 0 <= a < b < |all| ensures all[a].filename != all[b].filename {
      if all[a].filename == all[b].filename {
        EditImageFilenamesDistinct(a, prompts[a], b, prompts[b]);
      }
    }
  }

  /** Every prompt that gets an image ends with its entry 'completed'. */
  lemma {:induction false} CollectFromMarksCompleted(j: EditJob, gen: seq<string>, fetch: nat -> Outcome, p: nat, k: nat)
    requires p <= k < CollectedCount(|j.prompts|, |gen|)
    ensures var name := PromptLabel(k, j.prompts[k]);
      Lookup(CollectFrom(j, gen, fetch, p).log, name) == Some(LogEntry(name, Completed, None))
    decreases k - p
  {
    var name := PromptLabel(k, j.prompts[k]);
    CollectedCountMeans(|j.prompts|, |gen|, p);
    var s := CollectOne(j, p, gen[2 * p], fetch);
    if p == k {
      UpsertFacts(j.log, name, Completed, None);
      OwnLabelOnly(j.prompts, k, p + 1);
      CollectFromOthers(s, gen, fetch, p + 1, name);
    } else {
      CollectFromMarksCompleted(s, gen, fetch, p + 1, k);
    }
  }

  /** The images step 6 keeps: the collected ones for a non-empty successful reply, none otherwise. */
  function CollectedFor(prompts: seq<string>, o: Outcome, initial: nat, fetch: nat -> Outcome): seq<GeneratedImage> {
    match o
    case Ok(r) =>
      if r.success && r.thumbnails.Some? && |r.thumbnails.value| > 0
      then CollectedImages(prompts, Generated(r.thumbnails.value, initial), fetch)
      else []
    case Err(_) => []
  }

  /**
   * Steps 5 to 7: the images of `CollectedFor` are appended, the cursor moves past the
   * prompts, and the wait is logged as the outcome of waiting for `ExpectedCount` thumbnails.
   */
  lemma FinishRunImages(f: EditJob, env: EditEnv, initial: nat)
    ensures var g := FinishRun(f, env, initial);
      && g.generatedImages == f.generatedImages + CollectedFor(f.prompts, env.thumbnails, initial, env.fetch)
      && g.currentIndex == |f.prompts|
  {
    var w := WaitStep(f, env, initial);
    var c := w.(log := Upsert(w.log, CollectingLabel, Processing, None));
    match env.thumbnails
    case Err(_) =>
    case Ok(r) =>
      if r.success && r.thumbnails.Some? && |r.thumbnails.value| > 0 {
        var gen := Generated(r.thumbnails.value, initial);
        CollectFromImages(c, gen, env.fetch, 0);
      }
  }

  /** The "Waiting for generations..." entry settles with the outcome of the wait for initial + 2 per prompt. */
  lemma FinishRunWaiting(f: EditJob, env: EditEnv, initial: nat)
    ensures var o := env.waitForGeneration(ExpectedCount(initial, f.prompts));
      Lookup(FinishRun(f, env, initial).log, WaitingLabel)
        == Some(if o.Ok? then LogEntry(WaitingLabel, Completed, None) else LogEntry(WaitingLabel, Failed, Some(o.message)))
  {
    var w := WaitStep(f, env, initial);
    WaitStepEntry(f, env, initial);
    FixedNotPromptLabel(f.prompts, 0, WaitingLabel);
    CollectStepOthers(w, env, initial, WaitingLabel);
  }

  lemma WaitStepEntry(f: EditJob, env: EditEnv, initial: nat)
    ensures var o := env.waitForGeneration(ExpectedCount(initial, f.prompts));
      && WaitStep(f, env, initial).prompts == f.prompts
      && Lookup(WaitStep(f, env, initial).log, WaitingLabel)
        == Some(if o.Ok? then LogEntry(WaitingLabel, Completed, None) else LogEntry(WaitingLabel, Failed, Some(o.message)))
  {
    var o := env.waitForGeneration(ExpectedCount(initial, f.prompts));
    var l1 := Upsert(f.log, WaitingLabel, Processing, None);
    if o.Ok? {
      UpsertFacts(l1, WaitingLabel, Completed, None);
    } else {
      UpsertFacts(l1, WaitingLabel, Failed, Some(o.message));
    }
  }

  /** The entry step 6 ends with: 'completed' when there were thumbnails, else 'failed' with the reason. */
  function CollectingEntry(o: Outcome): LogEntry {
    match o
    case Ok(r) =>
      if r.success && r.thumbnails.Some? && |r.thumbnails.value| > 0
      then LogEntry(CollectingLabel, Completed, None)
      else LogEntry(CollectingLabel, Failed, Some(NoThumbnailsMessage))
    case Err(m) => LogEntry(CollectingLabel, Failed, Some(m))
  }

  /**
   * After steps 5 to 7, the "Collecting images..." entry is `CollectingEntry`, and every
   * prompt that got an image has its entry 'completed'.
   */
  lemma FinishRunCollectLog(f: EditJob, env: EditEnv, initial: nat, k: nat)
    requires k < |CollectedFor(f.prompts, env.thumbnails, initial, env.fetch)|
    ensures var g := FinishRun(f, env, initial);
      var name := PromptLabel(k, f.prompts[k]);
      && Lookup(g.log, CollectingLabel) == Some(CollectingEntry(env.thumbnails))
      && Lookup(g.log, name) == Some(LogEntry(name, Completed, None))
  {
    var w := WaitStep(f, env, initial);
    var c := w.(log := Upsert(w.log, CollectingLabel, Processing, None));
    var r := env.thumbnails.response;
    var gen := Generated(r.thumbnails.value, initial);
    var c2 := CollectFrom(c, gen, env.fetch, 0);
    var name := PromptLabel(k, f.prompts[k]);
    CollectedImagesShape(f.prompts, gen, env.fetch);
    CollectFromMarksCompleted(c, gen, env.fetch, 0, k);
    CollectFromSettings(c, gen, env.fetch, 0);
    PromptLabelNotFixed(k, f.prompts[k]);
    UpsertOthers(c2.log, CollectingLabel, Completed, None, name);
    UpsertFacts(c2.log, CollectingLabel, Completed, None);
  }

  /** Without thumbnails to collect, step 6 still ends with `CollectingEntry`. */
  lemma FinishRunCollectFailed(f: EditJob, env: EditEnv, initial: nat)
    requires CollectingEntry(env.thumbnails).status == Failed
    ensures Lookup(FinishRun(f, env, initial).log, CollectingLabel) == Some(CollectingEntry(env.thumbnails))
  {
    var w := WaitStep(f, env, initial);
    var l1 := Upsert(w.log, CollectingLabel, Processing, None);
    var e := CollectingEntry(env.thumbnails);
    UpsertFacts(l1, CollectingLabel, e.status, e.error);
  }

  // ---------------------------------------------------------------------------
  // The entry each prompt leaves.
  // ---------------------------------------------------------------------------

  /**
   * A prompt's entry is under its label; it stays 'processing' exactly when every call for
   * it succeeded (the reference click counting only after the first prompt), and is
   * otherwise 'failed' with the message of the first call that was rejected.
   */
  lemma PromptEntryShape(i: nat, prompt: string, pe: PromptEnv)
    ensures var e := PromptEntry(i, prompt, pe);
      && e.name == PromptLabel(i, prompt)
      && e.status in {Processing, Failed}
      && (e.status == Processing <==>
            (i > 0 ==> pe.clickReference.Ok?) && pe.enterPrompt.Ok? && pe.submitPrompt.Ok?)
      && (e.status == Processing ==> e.error == None)
      && (i > 0 && pe.clickReference.Err? ==> e == LogEntry(e.name, Failed, Some(pe.clickReference.message)))
      && ((i == 0 || pe.clickReference.Ok?) && pe.enterPrompt.Err? ==>
            e == LogEntry(e.name, Failed, Some(pe.enterPrompt.message)))
      && ((i == 0 || pe.clickReference.Ok?) && pe.enterPrompt.Ok? && pe.submitPrompt.Err? ==>
            e == LogEntry(e.name, Failed, Some(pe.submitPrompt.message)))
  {
  }

  /** One prompt step writes that prompt's entry, moves the cursor to it, and leaves every other label alone. */
  lemma StepPromptLog(j: EditJob, i: nat, pe: PromptEnv)
    requires i < |j.prompts|
    ensures var r := StepPrompt(j, i, pe);
      var name := PromptLabel(i, j.prompts[i]);
      && Lookup(r.log, name) == Some(PromptEntry(i, j.prompts[i], pe))
      && (forall other :: other != name ==> Lookup(r.log, other) == Lookup(j.log, other))
      && r.currentIndex == i
  {
    var e := PromptEntry(i, j.prompts[i], pe);
    UpsertFacts(j.log, e.name, e.status, e.error);
  }

  /**
   * Each prompt's failure is logged and the loop goes on: when no command arrived before
   * prompt `m`, the loop from `i` leaves prompt `m`'s own entry in the log, whatever
   * happened to the prompts before it.
   */
  lemma {:induction false} PromptsFromLogAt(j: EditJob, env: EditEnv, i: nat, m: nat)
    requires i <= m < |j.prompts|
    requires j.isProcessing && !j.isPaused && QuietSteps(env, i, m)
    ensures Lookup(PromptsFrom(j, env, i).job.log, PromptLabel(m, j.prompts[m]))
      == Some(PromptEntry(m, j.prompts[m], env.steps(m)))
    decreases m - i
  {
    var s := StepPrompt(j, i, env.steps(i));
    assert PromptsFrom(j, env, i) == PromptsFrom(s, env, i + 1);
    if i == m {
      StepPromptLog(j, i, env.steps(i));
      OwnLabelOnly(j.prompts, m, m + 1);
      PromptsFromOthers(s, env, i + 1, PromptLabel(m, j.prompts[m]));
    } else {
      assert env.steps(i).during == [];
      PromptsFromLogAt(s, env, i + 1, m);
    }
  }

  /** With no popup command at all, the prompt loop runs to its end. */
  lemma {:induction false} PromptsQuiet(j: EditJob, env: EditEnv, i: nat)
    requires j.isProcessing && !j.isPaused
    requires QuietSteps(env, i, |j.prompts|)
    ensures var r := PromptsFrom(j, env, i);
      r.Finished? && r.job.isProcessing && !r.job.isPaused
    decreases |j.prompts| - i
  {
    if i < |j.prompts| {
      PromptsQuiet(StepPrompt(j, i, env.steps(i)), env, i + 1);
    }
  }

  /**
   * A run whose set-up passes and in which no popup command arrives: every prompt is
   * submitted, the images of `CollectedFor` are kept, the wait is logged with the outcome of
   * waiting for the initial thumbnails and two per prompt, the cursor ends past the last
   * prompt, and the run ends neither processing nor paused, without an error.
   */
  lemma EditRunCompletes(msg: StartEditMessage, env: EditEnv)
    requires HasTab(msg.tabId)
    requires SetupFailureEntry(env.setup).None? && env.setup.during == [] && env.after == []
    requires QuietSteps(env, 0, |msg.prompts|)
    ensures var r := EditRun(StartEdit(msg), env);
      var initial := InitialCount(env.setup.thumbnails);
      var o := env.waitForGeneration(ExpectedCount(initial, msg.prompts));
      && !r.isProcessing && !r.isPaused && r.error == None
      && r.prompts == msg.prompts && r.currentIndex == |msg.prompts|
      && r.generatedImages == CollectedFor(msg.prompts, env.thumbnails, initial, env.fetch)
      && Lookup(r.log, WaitingLabel)
        == Some(if o.Ok? then LogEntry(WaitingLabel, Completed, None) else LogEntry(WaitingLabel, Failed, Some(o.message)))
  {
    var j := StartEdit(msg);
    var initial := InitialCount(env.setup.thumbnails);
    var f := QuietRunFinishes(j, env);
    FinishedRunFacts(f, env, initial);
  }

  /** The fields a run ends with when it goes through steps 5 to 7 after the last prompt. */
  lemma FinishedRunFacts(f: EditJob, env: EditEnv, initial: nat)
    requires !f.isPaused && f.error == None && f.generatedImages == []
    ensures var r := FinishRun(f, env, initial).(isProcessing := false);
      var o := env.waitForGeneration(ExpectedCount(initial, f.prompts));
      && !r.isProcessing && !r.isPaused && r.error == None
      && r.prompts == f.prompts && r.currentIndex == |f.prompts|
      && r.generatedImages == CollectedFor(f.prompts, env.thumbnails, initial, env.fetch)
      && Lookup(r.log, WaitingLabel)
        == Some(if o.Ok? then LogEntry(WaitingLabel, Completed, None) else LogEntry(WaitingLabel, Failed, Some(o.message)))
  {
    var w := WaitStep(f, env, initial);
    var g := FinishRun(f, env, initial);
    FinishRunImages(f, env, initial);
    FinishRunWaiting(f, env, initial);
    CollectStepSettings(w, env, initial);
    assert g.(isProcessing := false).log == g.log;
  }

  /** A quiet run past a passing set-up is the finishing steps applied to the record the prompt loop leaves. */
  lemma QuietRunFinishes(j: EditJob, env: EditEnv) returns (f: EditJob)
    requires j.isProcessing && !j.isPaused && HasTab(j.currentTabId)
    requires SetupFailureEntry(env.setup).None? && env.setup.during == [] && env.after == []
    requires QuietSteps(env, j.currentIndex, |j.prompts|)
    ensures EditRun(j, env) == FinishRun(f, env, InitialCount(env.setup.thumbnails)).(isProcessing := false)
    ensures f.prompts == j.prompts && f.generatedImages == j.generatedImages && f.error == j.error
    ensures !f.isPaused
  {
    assert CheckedRun(j, env) == VerifiedRun(j, env);
    var j1 := j.(log := Upsert(j.log, EditModeLabel, Completed, None));
    PromptsQuiet(j1, env, j1.currentIndex);
    PromptsFromSettings(j1, env, j1.currentIndex);
    f := PromptsFrom(j1, env, j1.currentIndex).job;
  }
}
