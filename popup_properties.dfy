/**
 * What the popup's decisions amount to: the prompt list `getEditPrompts` reads out of the
 * text area, the queue `startGeneration` builds, the buttons and status texts, and what the
 * popup shows once a background run has ended one way or another.
 */
module PopupProperties {
  import opened Wrappers
  import opened Text
  import opened Filenames
  import opened Messaging
  import opened Video
  import opened VideoProperties
  import opened Edit
  import opened EditProperties
  import opened Popup

  // ---------------------------------------------------------------------------
  // The prompt list.
  // ---------------------------------------------------------------------------

  lemma {:induction false} CleanAppend(a: seq<string>, b: seq<string>)
    ensures Clean(a + b) == Clean(a) + Clean(b)
  {
    if a == [] {
      assert a + b == b;
    } else {
      assert (a + b)[0] == a[0] && (a + b)[1..] == a[1..] + b;
      CleanAppend(a[1..], b);
    }
  }

  /** A white-space character in front of the text changes no prompt. */
  lemma CleanSplitConsWhitespace(c: char, s: string)
    requires IsWhitespace(c)
    ensures Clean(Split([c] + s, '\n')) == Clean(Split(s, '\n'))
  {
    var p := Split(s, '\n');
    assert ([c] + s)[1..] == s;
    if c == '\n' {
      assert Split([c] + s, '\n') == [[]] + p;
      assert ([[]] + p)[1..] == p;
    } else {
      var l := Split([c] + s, '\n');
      SplitConsOther(c, s, '\n');
      TrimConsWhitespace(c, p[0]);
      assert l[1..] == p[1..];
    }
  }

  /** Growing the last line by a white-space character changes no prompt. */
  lemma CleanSnocLast(lines: seq<string>, c: char)
    requires lines != [] && IsWhitespace(c)
    ensures Clean(GrowLast(lines, c)) == Clean(lines)
  {
    var init := lines[..|lines| - 1];
    var last := lines[|lines| - 1];
    assert lines == init + [last];
    CleanAppend(init, [last + [c]]);
    CleanAppend(init, [last]);
    TrimSnocWhitespace(last, c);
    assert [last + [c]][1..] == [] && [last][1..] == [];
  }

  /** A white-space character after the text changes no prompt. */
  lemma CleanSplitSnocWhitespace(s: string, c: char)
    requires IsWhitespace(c)
    ensures Clean(Split(s + [c], '\n')) == Clean(Split(s, '\n'))
  {
    if c == '\n' {
      CleanSplitSnocNewline(s);
    } else {
      SplitSnocOther(s, c, '\n');
      CleanSnocLast(Split(s, '\n'), c);
    }
  }

  /** A line break after the text adds an empty line, which no prompt comes from. */
  lemma CleanSplitSnocNewline(s: string)
    ensures Clean(Split(s + ['\n'], '\n')) == Clean(Split(s, '\n'))
  {
    var p := Split(s, '\n');
    var empty: seq<string> := [[]];
    SplitSnocSeparator(s, '\n');
    CleanAppend(p, empty);
    assert Trim([]) == [] && empty[1..] == [];
    assert Clean(empty) == [];
    assert Clean(p) + [] == Clean(p);
  }

  lemma {:induction false} CleanSplitLead(lead: string, t: string)
    requires AllWhitespace(lead)
    ensures Clean(Split(lead + t, '\n')) == Clean(Split(t, '\n'))
  {
    if lead != [] {
      assert lead + t == [lead[0]] + (lead[1..] + t);
      CleanSplitConsWhitespace(lead[0], lead[1..] + t);
      CleanSplitLead(lead[1..], t);
    } else {
      assert lead + t == t;
    }
  }

  lemma {:induction false} CleanSplitTrail(t: string, trail: string)
    requires AllWhitespace(trail)
    ensures Clean(Split(t + trail, '\n')) == Clean(Split(t, '\n'))
    decreases |trail|
  {
    if trail != [] {
      var init := trail[..|trail| - 1];
      assert t + trail == (t + init) + [trail[|trail| - 1]];
      CleanSplitSnocWhitespace(t + init, trail[|trail| - 1]);
      CleanSplitTrail(t, init);
    } else {
      assert t + trail == t;
    }
  }

  /** Trimming the whole text first makes no difference: the lines are trimmed anyway. */
  lemma GetEditPromptsAsClean(text: string)
    ensures GetEditPrompts(text) == Clean(Split(text, '\n'))
  {
    var lead, trail := TrimDecomposition(text);
    var t := Trim(text);
    CleanSplitTrail(lead + t, trail);
    CleanSplitLead(lead, t);
    if t == [] {
      assert lead + t == lead;
      assert Split([], '\n') == [[]];
      assert Trim([]) == [];
    }
  }

  lemma {:induction false} CleanGivesPrompts(lines: seq<string>)
    requires forall k :: 0 <= k < |lines| ==> '\n' !in lines[k]
    ensures forall k :: 0 <= k < |Clean(lines)| ==> IsPrompt(Clean(lines)[k])
  {
    if lines != [] {
      CleanGivesPrompts(lines[1..]);
      TrimIdempotent(lines[0]);
      TrimSubstring(lines[0], '\n');
    }
  }

  /** Every prompt is one non-empty line without white-space margins. */
  lemma PromptsAreClean(text: string)
    ensures forall k :: 0 <= k < |GetEditPrompts(text)| ==> IsPrompt(GetEditPrompts(text)[k])
  {
    GetEditPromptsAsClean(text);
    CleanGivesPrompts(Split(text, '\n'));
  }

  /** Text that is only white space holds no prompt. */
  lemma BlankTextNoPrompts(text: string)
    requires AllWhitespace(text)
    ensures GetEditPrompts(text) == []
  {
    TrimWhitespace(text);
  }

  lemma {:induction false} CleanOfPrompts(lines: seq<string>)
    requires forall k :: 0 <= k < |lines| ==> IsPrompt(lines[k])
    ensures Clean(lines) == lines
  {
    if lines != [] {
      CleanOfPrompts(lines[1..]);
    }
  }

  lemma {:induction false} SplitNoSeparator(s: string, sep: char)
    requires sep !in s
    ensures Split(s, sep) == [s]
  {
    if s != [] {
      assert s[0] != sep && sep !in s[1..];
      SplitNoSeparator(s[1..], sep);
      assert [s[0]] + s[1..] == s;
    }
  }

  /** Splitting the joined pieces gives the pieces back when none holds the separator. */
  lemma {:induction false} SplitJoin(pieces: seq<string>, sep: char)
    requires pieces != []
    requires forall k :: 0 <= k < |pieces| ==> sep !in pieces[k]
    ensures Split(Join(pieces, sep), sep) == pieces
  {
    if |pieces| == 1 {
      SplitNoSeparator(pieces[0], sep);
    } else {
      SplitJoin(pieces[1..], sep);
      SplitAtSeparator(pieces[0], sep, Join(pieces[1..], sep));
      SplitNoSeparator(pieces[0], sep);
      assert [pieces[0]] + pieces[1..] == pieces;
    }
  }

  /** A list of prompts written one per line reads back as the same list. */
  lemma PromptsRoundTrip(prompts: seq<string>)
    requires forall k :: 0 <= k < |prompts| ==> IsPrompt(prompts[k])
    ensures GetEditPrompts(Join(prompts, '\n')) == prompts
  {
    if prompts != [] {
      GetEditPromptsAsClean(Join(prompts, '\n'));
      SplitJoin(prompts, '\n');
      CleanOfPrompts(prompts);
    }
  }

  /** Writing the prompt list back one per line and reading it again changes nothing. */
  lemma PromptsIdempotent(text: string)
    ensures GetEditPrompts(Join(GetEditPrompts(text), '\n')) == GetEditPrompts(text)
  {
    PromptsAreClean(text);
    PromptsRoundTrip(GetEditPrompts(text));
  }

  /** A `.txt` upload adds its prompts after the ones already in the box, in order. */
  lemma UploadAppendsPrompts(existing: string, text: string)
    ensures GetEditPrompts(AppendPrompts(existing, text)) == GetEditPrompts(existing) + GetEditPrompts(text)
  {
    var e := Trim(existing);
    if e != [] {
      assert e + "\n" + text == e + ['\n'] + text;
      GetEditPromptsAsClean(e + "\n" + text);
      SplitAtSeparator(e, '\n', text);
      CleanAppend(Split(e, '\n'), Split(text, '\n'));
      GetEditPromptsAsClean(text);
    }
  }

  /** The upload handler appends the file's prompts, and an upload that fails changes nothing. */
  lemma UploadedPrompts(s: PopupState, file: Option<Result<string>>)
    ensures var t := PromptsUploaded(s, file);
      && t.(editPrompts := s.editPrompts) == s
      && GetEditPrompts(t.editPrompts)
        == GetEditPrompts(s.editPrompts) + (if file.Some? && file.value.Success? then GetEditPrompts(file.value.value) else [])
  {
    if file.Some? && file.value.Success? {
      UploadAppendsPrompts(s.editPrompts, file.value.value);
    } else {
      assert GetEditPrompts(s.editPrompts) + [] == GetEditPrompts(s.editPrompts);
    }
  }

  // ---------------------------------------------------------------------------
  // The file selection and the queue.
  // ---------------------------------------------------------------------------

  lemma {:induction false} ImageFilesAppend(a: seq<File>, b: seq<File>)
    ensures ImageFiles(a + b) == ImageFiles(a) + ImageFiles(b)
  {
    if a == [] {
      assert a + b == b;
    } else {
      assert (a + b)[0] == a[0] && (a + b)[1..] == a[1..] + b;
      ImageFilesAppend(a[1..], b);
    }
  }

  lemma {:induction false} ImageFilesOfImages(files: seq<File>)
    requires AllImages(files)
    ensures ImageFiles(files) == files
  {
    if files != [] {
      ImageFilesOfImages(files[1..]);
      assert [files[0]] + files[1..] == files;
    }
  }

  /**
   * The selection only ever holds image files, and adding files leaves it the image files
   * of the old selection followed by the new files, as filtering the whole list would.
   */
  lemma SelectionStaysImages(s: PopupState, files: seq<File>)
    requires AllImages(s.selectedFiles)
    ensures AllImages(FolderSelected(s, files).selectedFiles)
    ensures AllImages(FilesSelected(s, files).selectedFiles)
    ensures FilesSelected(s, files).selectedFiles == ImageFiles(s.selectedFiles + files)
  {
    var images := ImageFiles(files);
    assert forall k :: 0 <= k < |images| ==> images[k] in images;
    ImageFilesAppend(s.selectedFiles, files);
    ImageFilesOfImages(s.selectedFiles);
    assert s.selectedFiles + [] == s.selectedFiles;
  }

  /**
   * The queue exists exactly when every file can be read; it has one item per file, in
   * order, and no two items share an output name, even for files with the same name.
   */
  lemma BuildQueueShape(files: seq<File>, read: File -> Option<string>)
    ensures BuildQueue(files, read).Some? <==> AllRead(files, read)
    ensures BuildQueue(files, read).Some? ==>
      var q := BuildQueue(files, read).value;
      && |q| == |files|
      && (forall k :: 0 <= k < |q| ==> q[k].filename == files[k].name && Some(q[k].data) == read(files[k]))
      && (forall i, j :: 0 <= i < j < |q| ==> q[i].outputFilename != q[j].outputFilename)
  {
    if AllRead(files, read) {
      var q := BuildQueue(files, read).value;
      forall i, j | 0 <= i < j < |q|
        ensures q[i].outputFilename != q[j].outputFilename
      {
        if q[i].outputFilename == q[j].outputFilename {
          OutputFilenamesDistinct(i, files[i].name, j, files[j].name);
        }
      }
    }
  }

  // ---------------------------------------------------------------------------
  // Buttons.
  // ---------------------------------------------------------------------------

  /**
   * Start is never enabled beside pause or stop; pause and stop are enabled exactly while a
   * run is active; the pause button reads "Resume" exactly when that run is paused; the
   * inputs are locked and the warning shown exactly while a run is active.
   */
  lemma ButtonsConsistent(busy: bool, paused: bool, hasInput: bool, onGrok: bool)
    ensures var b := ControlButtons(busy, paused, hasInput, onGrok);
      && (!b.startDisabled ==> b.pauseDisabled && b.stopDisabled)
      && (b.pauseDisabled <==> !busy) && b.stopDisabled == b.pauseDisabled
      && (b.pauseText == "Resume" <==> busy && paused)
      && (b.inputsDisabled <==> busy) && (b.warningShown <==> busy)
      && (!b.clearDisabled ==> hasInput && !busy) && (!busy ==> (b.clearDisabled <==> !hasInput))
      && (!busy ==> (b.startDisabled <==> !hasInput || !onGrok))
  {
  }

  /** While no run is active, the start button is enabled exactly when pressing it sends the queue. */
  lemma VideoStartEnabledIffSent(s: PopupState, read: File -> Option<string>)
    requires !s.isProcessing && AllRead(s.selectedFiles, read)
    ensures !VideoButtons(s).startDisabled <==> StartGenerationStep(s, read).sent.Some?
  {
    BuildQueueShape(s.selectedFiles, read);
  }

  /** While no run is active, the edit start button is enabled exactly when pressing it sends the prompts. */
  lemma EditStartEnabledIffSent(s: PopupState)
    requires !s.editIsProcessing
    ensures !EditButtons(s).startDisabled <==> StartImageEditStep(s).sent.Some?
  {
  }

  /** A start that goes through sends every selected file and leaves only pause and stop enabled. */
  lemma StartLocksControls(s: PopupState, read: File -> Option<string>)
    requires StartGenerationStep(s, read).sent.Some?
    ensures var st := StartGenerationStep(s, read);
      var b := VideoButtons(st.state);
      && st.sent.value.StartProcessing? && |st.sent.value.start.queue| == |s.selectedFiles| > 0
      && b.startDisabled && !b.pauseDisabled && !b.stopDisabled && b.pauseText == "Pause"
  {
    BuildQueueShape(s.selectedFiles, read);
  }

  /** An edit start that goes through sends the prompt list and leaves only pause and stop enabled. */
  lemma EditStartLocksControls(s: PopupState)
    requires StartImageEditStep(s).sent.Some?
    ensures var st := StartImageEditStep(s);
      var b := EditButtons(st.state);
      && st.sent.value.StartImageEdit? && st.sent.value.edit.prompts == GetEditPrompts(s.editPrompts) != []
      && (forall k :: 0 <= k < |st.sent.value.edit.prompts| ==> IsPrompt(st.sent.value.edit.prompts[k]))
      && b.startDisabled && !b.pauseDisabled && !b.stopDisabled && b.pauseText == "Pause"
  {
    PromptsAreClean(s.editPrompts);
  }

  /** Pressing pause twice restores the flag, sending a pause and a resume in some order. */
  lemma TogglePauseTwice(s: PopupState)
    ensures var a := TogglePauseStep(s);
      var b := TogglePauseStep(a.state);
      && a.state.isPaused == !s.isPaused && b.state.isPaused == s.isPaused
      && {a.sent, b.sent} == {Some(PauseProcessing), Some(ResumeProcessing)}
      && (s.isProcessing ==> VideoButtons(a.state).pauseText == (if s.isPaused then "Pause" else "Resume"))
  {
  }

  lemma ToggleEditPauseTwice(s: PopupState)
    ensures var a := ToggleEditPauseStep(s);
      var b := ToggleEditPauseStep(a.state);
      && a.state.editIsPaused == !s.editIsPaused && b.state.editIsPaused == s.editIsPaused
      && {a.sent, b.sent} == {Some(PauseImageEdit), Some(ResumeImageEdit)}
      && (s.editIsProcessing ==> EditButtons(a.state).pauseText == (if s.editIsPaused then "Pause" else "Resume"))
  {
  }

  /** A confirmed stop frees the controls at once; a cancelled one does nothing. */
  lemma StopFreesControls(s: PopupState, confirmed: bool)
    ensures var st := StopGenerationStep(s, confirmed);
      var b := VideoButtons(st.state);
      && (confirmed ==> st.sent == Some(StopProcessing) && b.pauseDisabled && b.stopDisabled
                        && (b.startDisabled <==> s.selectedFiles == [] || !s.onGrok))
      && (!confirmed ==> st == Step(s, None))
  {
  }

  lemma StopEditFreesControls(s: PopupState, confirmed: bool)
    ensures var st := StopImageEditStep(s, confirmed);
      var b := EditButtons(st.state);
      && (confirmed ==> st.sent == Some(StopImageEdit) && b.pauseDisabled && b.stopDisabled
                        && (b.startDisabled <==> GetEditPrompts(s.editPrompts) == [] || !s.onGrok))
      && (!confirmed ==> st == Step(s, None))
  {
  }

  // ---------------------------------------------------------------------------
  // Status texts.
  // ---------------------------------------------------------------------------

  /** When each fixed video status text appears, and when the line is left as it was. */
  lemma VideoStatusCases(v: VideoStateView)
    ensures VideoStatus(v) == Some("Paused") <==> v.isPaused
    ensures VideoStatus(v) == Some("Complete!") <==> !v.isProcessing && !v.isPaused && v.videoCounter > 0
    ensures VideoStatus(v).None? <==>
      || (v.isProcessing && !v.isPaused && v.currentIndex >= |v.queue|)
      || (!v.isProcessing && !v.isPaused && v.videoCounter == 0)
  {
    if v.isProcessing && !v.isPaused && v.currentIndex < |v.queue| {
      var t := "Generating: \"" + Truncate(Some(v.queue[v.currentIndex].filename), 30) + "\"";
      assert |t| >= 14;
    }
  }

  predicate HasError(v: EditStateView) {
    v.error.Some? && v.error.value != []
  }

  predicate AllDone(v: EditStateView) {
    v.currentIndex >= |v.prompts| && |v.prompts| > 0
  }

  /** When each edit status text appears; an error outranks completion, and completion outranks "Stopped". */
  lemma EditStatusCases(v: EditStateView, wasProcessing: bool)
    ensures EditStatus(v, wasProcessing) == Some("Paused") <==> v.isPaused
    ensures EditStatus(v, wasProcessing) == Some("Error: " + Truncate(v.error, 50)) <==>
      !v.isProcessing && !v.isPaused && HasError(v)
    ensures EditStatus(v, wasProcessing) == Some("Complete!") <==>
      !v.isProcessing && !v.isPaused && !HasError(v) && AllDone(v)
    ensures EditStatus(v, wasProcessing) == Some("Stopped") <==>
      !v.isProcessing && !v.isPaused && !HasError(v) && !AllDone(v) && wasProcessing
  {
    var e := "Error: " + Truncate(v.error, 50);
    assert e[0] == 'E' && e[1] == 'r' && |e| >= 7;
    if v.isProcessing && !v.isPaused && v.currentIndex < |v.prompts| && v.prompts[v.currentIndex] != [] {
      var t := "Editing: \"" + Truncate(Some(v.prompts[v.currentIndex]), 30) + "\"";
      assert t[1] == 'd' && |t| >= 11;
    }
    if !v.isProcessing && !v.isPaused && HasError(v) {
      assert |Truncate(v.error, 50)| > 0;
    }
  }

  // ---------------------------------------------------------------------------
  // What the popup shows after a background run ends.
  // ---------------------------------------------------------------------------

  /** An edit run that goes through every prompt shows "Complete!" and frees the controls. */
  lemma CompletedEditShowsComplete(msg: StartEditMessage, env: EditEnv, s: PopupState, v: VideoStateView)
    requires HasTab(msg.tabId) && |msg.prompts| > 0
    requires SetupFailureEntry(env.setup).None? && env.setup.during == [] && env.after == []
    requires QuietSteps(env, 0, |msg.prompts|)
    ensures var t := Refreshed(s, v, Edit.StateView(EditRun(StartEdit(msg), env)));
      && t.editCurrentStatus == "Complete!" && !t.editIsProcessing && !t.editIsPaused
      && EditButtons(t).pauseDisabled && EditButtons(t).stopDisabled
  {
    EditRunCompletes(msg, env);
    EditStatusCases(Edit.StateView(EditRun(StartEdit(msg), env)), s.editIsProcessing);
  }

  /**
   * A pause during an edit run ends that run: the popup shows "Paused" but, the run no longer
   * being active, disables the pause (resume) button, and a later resume would do nothing.
   */
  lemma PausedEditCannotResume(msg: StartEditMessage, env: EditEnv, n: nat, later: EditEnv, s: PopupState, v: VideoStateView)
    requires HasTab(msg.tabId) && n + 1 < |msg.prompts|
    requires SetupFailureEntry(env.setup).None? && env.setup.during == []
    requires QuietSteps(env, 0, n) && env.steps(n).during == [PauseCommand]
    ensures var r := EditRun(StartEdit(msg), env);
      var t := Refreshed(s, v, Edit.StateView(r));
      && t.editCurrentStatus == "Paused" && !t.editIsProcessing && t.editIsPaused
      && EditButtons(t).pauseDisabled
      && EditRun(ResumeEdit(r), later) == ResumeEdit(r)
  {
    ControlEndsEditRun(msg, env, n, PauseCommand, later);
    EditStatusCases(Edit.StateView(EditRun(StartEdit(msg), env)), s.editIsProcessing);
  }

  /** A stop during an edit run, seen by a popup that saw the run active, shows "Stopped". */
  lemma StoppedEditShowsStopped(msg: StartEditMessage, env: EditEnv, n: nat, s: PopupState, v: VideoStateView)
    requires HasTab(msg.tabId) && n + 1 < |msg.prompts| && s.editIsProcessing
    requires SetupFailureEntry(env.setup).None? && env.setup.during == []
    requires QuietSteps(env, 0, n) && env.steps(n).during == [StopCommand]
    ensures var t := Refreshed(s, v, Edit.StateView(EditRun(StartEdit(msg), env)));
      && t.editCurrentStatus == "Stopped" && !t.editIsProcessing && !t.editIsPaused
  {
    ControlEndsEditRun(msg, env, n, StopCommand, env);
    EditStatusCases(Edit.StateView(EditRun(StartEdit(msg), env)), s.editIsProcessing);
  }

  /**
   * A stop during a video run leaves the counter above zero with both flags clear, so the
   * popup's video status line reads "Complete!" although the queue was not finished.
   */
  lemma StoppedVideoShowsComplete(j: VideoJob, env: QueueEnv, i: nat, n: nat, s: PopupState, e: EditStateView)
    requires i <= n < |j.queue|
    requires j.isProcessing && !j.isPaused
    requires NoControlsBetween(env, i, n) && env.items(n).during == [StopCommand]
    ensures var t := Refreshed(s, Video.StateView(RunFrom(j, env, i)), e);
      && t.currentStatus == "Complete!" && !t.isProcessing && !t.isPaused
  {
    StopEndsRun(j, env, i, n);
    VideoStatusCases(Video.StateView(RunFrom(j, env, i)));
  }
}
