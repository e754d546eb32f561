/**
 * The popup (popup/popup.js): its string and list helpers, the button and status-text
 * decisions it makes from the state it holds or reads back, and the event handlers that
 * reassign its module-level variables and send the background its requests.
 *
 * The DOM is reduced to the values the handlers read (the image list, the prompt text, the
 * form fields, whether the status badge says "Connected") and the texts they write.
 */
module Popup {
  import opened Wrappers
  import opened Text
  import opened Filenames
  import opened Video
  import opened Edit

  // ---------------------------------------------------------------------------
  // Helpers.
  // ---------------------------------------------------------------------------

  /**
   * `truncate(str, maxLength)`; `None` is a missing string. A string that is too long keeps
   * its first `maxLength - 3` characters (none when that is negative) and gains "...".
   */
  function Truncate(str: Option<string>, maxLength: int): (r: string)
    ensures str.None? || str.value == [] ==> r == []
    ensures str.Some? && |str.value| <= maxLength ==> r == str.value
    ensures str.Some? && str.value != [] && |str.value| > maxLength ==>
      && |r| == (if maxLength < 3 then 3 else maxLength)
      && r[|r| - 3..] == "..."
      && StartsWith(str.value, r[..|r| - 3])
  {
    if str.None? || str.value == [] then []
    else if |str.value| <= maxLength then str.value
    else Take(str.value, maxLength - 3) + "..."
  }

  /** `lines.map(p => p.trim()).filter(p => p.length > 0)`. */
  function Clean(lines: seq<string>): (r: seq<string>)
    ensures |r| <= |lines|
  {
    if lines == [] then []
    else (if Trim(lines[0]) == [] then [] else [Trim(lines[0])]) + Clean(lines[1..])
  }

  /** `getEditPrompts`: the trimmed text's lines, each trimmed, without the empty ones. */
  function GetEditPrompts(text: string): seq<string> {
    var t := Trim(text);
    if t == [] then [] else Clean(Split(t, '\n'))
  }

  /** What a prompt in the list looks like: one non-empty line without white-space margins. */
  predicate IsPrompt(p: string) {
    p != [] && Trim(p) == p && '\n' !in p
  }

  /** The text `handlePromptsFileUpload` leaves in the prompt box: the upload after the trimmed old text. */
  function AppendPrompts(existing: string, text: string): string {
    var e := Trim(existing);
    if e != [] then e + "\n" + text else text
  }

  /** A selected file: which `File` object it is (two files of one name picked from different
      sub-folders are two objects), its name and its MIME type. */
  datatype File = File(handle: nat, name: string, mimeType: string)

  /** `isImageFile`. */
  predicate IsImageFile(f: File) {
    StartsWith(f.mimeType, "image/")
  }

  /** `Array.from(files).filter(isImageFile)`: the image files, in their order. */
  function ImageFiles(files: seq<File>): (r: seq<File>)
    ensures |r| <= |files|
    ensures forall f :: f in r <==> f in files && IsImageFile(f)
  {
    if files == [] then []
    else
      var rest := ImageFiles(files[1..]);
      assert forall f :: f in files <==> f == files[0] || f in files[1..];
      (if IsImageFile(files[0]) then [files[0]] else []) + rest
  }

  predicate AllImages(files: seq<File>) {
    forall k :: 0 <= k < |files| ==> IsImageFile(files[k])
  }

  /** Whether `fileToBase64` succeeds for every file (`Promise.all` rejects otherwise). */
  predicate AllRead(files: seq<File>, read: File -> Option<string>) {
    forall k :: 0 <= k < |files| ==> read(files[k]).Some?
  }

  /**
   * The queue `startGeneration` builds: one item per file, with its data URL as `read`
   * yields it and its numbered output name; nothing when some file cannot be read.
   */
  function BuildQueue(files: seq<File>, read: File -> Option<string>): Option<seq<QueueItem>> {
    if AllRead(files, read) then
      Some(seq(|files|, k requires 0 <= k < |files| && read(files[k]).Some? =>
        QueueItem(files[k].name, read(files[k]).value, OutputFilename(k, files[k].name))))
    else None
  }

  // ---------------------------------------------------------------------------
  // Buttons and status texts.
  // ---------------------------------------------------------------------------

  /**
   * What `updateControlButtons` and `updateEditControlButtons` set: the start, pause and
   * stop buttons, the pause button's text, the inputs (folder and file pickers, or the prompt
   * box and upload button), the clear button, and the warning banner.
   */
  datatype Buttons = Buttons(
    startDisabled: bool,
    pauseDisabled: bool,
    stopDisabled: bool,
    pauseText: string,
    inputsDisabled: bool,
    clearDisabled: bool,
    warningShown: bool)

  /** The decision both functions make, from whether a run is active or paused, whether there is input, and the badge. */
  function ControlButtons(busy: bool, paused: bool, hasInput: bool, onGrok: bool): Buttons {
    if busy then Buttons(true, false, false, if paused then "Resume" else "Pause", true, true, true)
    else Buttons(!hasInput || !onGrok, true, true, "Pause", false, !hasInput, false)
  }

  /** The text `refreshState` puts in the video status line, or `None` to leave it. */
  function VideoStatus(v: VideoStateView): Option<string> {
    if v.isProcessing && !v.isPaused then
      if v.currentIndex < |v.queue| then
        Some("Generating: \"" + Truncate(Some(v.queue[v.currentIndex].filename), 30) + "\"")
      else None
    else if v.isPaused then Some("Paused")
    else if !v.isProcessing && v.videoCounter > 0 then Some("Complete!")
    else None
  }

  /** The text `refreshState` puts in the edit status line, given whether the run was active at the last refresh. */
  function EditStatus(v: EditStateView, wasProcessing: bool): Option<string> {
    if v.isProcessing && !v.isPaused then
      if v.currentIndex < |v.prompts| && v.prompts[v.currentIndex] != [] then
        Some("Editing: \"" + Truncate(Some(v.prompts[v.currentIndex]), 30) + "\"")
      else None
    else if v.isPaused then Some("Paused")
    else if !v.isProcessing && v.error.Some? && v.error.value != [] then Some("Error: " + Truncate(v.error, 50))
    else if !v.isProcessing && v.currentIndex >= |v.prompts| && |v.prompts| > 0 then Some("Complete!")
    else if !v.isProcessing && wasProcessing then Some("Stopped")
    else None
  }

  // ---------------------------------------------------------------------------
  // The popup's variables and what its handlers do to them.
  // ---------------------------------------------------------------------------

  /** The requests the popup sends the background, by `action`. */
  datatype Request =
    | StartProcessing(start: StartMessage)
    | PauseProcessing
    | ResumeProcessing
    | StopProcessing
    | StartImageEdit(edit: StartEditMessage)
    | PauseImageEdit
    | ResumeImageEdit
    | StopImageEdit

  /** The popup's module-level variables and the form values its handlers read or write. */
  datatype PopupState = PopupState(
    selectedFiles: seq<File>,
    isProcessing: bool,
    isPaused: bool,
    onGrok: bool,
    currentTabId: Option<int>,
    aspectRatio: string,
    downloadFolder: string,
    currentStatus: string,
    editPrompts: string,
    editIsProcessing: bool,
    editIsPaused: bool,
    editDelay: int,
    editDownloadFolder: string,
    editCurrentStatus: string)

  /** A handler's effect: the new variables and the request it sent, if any. */
  datatype Step = Step(state: PopupState, sent: Option<Request>)

  function VideoButtons(s: PopupState): Buttons {
    ControlButtons(s.isProcessing, s.isPaused, s.selectedFiles != [], s.onGrok)
  }

  function EditButtons(s: PopupState): Buttons {
    ControlButtons(s.editIsProcessing, s.editIsPaused, GetEditPrompts(s.editPrompts) != [], s.onGrok)
  }

  /** `handleFolderSelect`: the image files replace the selection, unless there are none. */
  function FolderSelected(s: PopupState, files: seq<File>): PopupState {
    var images := ImageFiles(files);
    if images != [] then s.(selectedFiles := images) else s
  }

  /** `handleFilesSelect`: the image files join the selection, unless there are none. */
  function FilesSelected(s: PopupState, files: seq<File>): PopupState {
    var images := ImageFiles(files);
    if images != [] then s.(selectedFiles := s.selectedFiles + images) else s
  }

  /** `startGeneration`: refused without files or off Grok; otherwise the queue is sent. */
  function StartGenerationStep(s: PopupState, read: File -> Option<string>): Step {
    if s.selectedFiles == [] || !s.onGrok then Step(s, None)
    else
      match BuildQueue(s.selectedFiles, read)
      case None => Step(s, None)
      case Some(q) =>
        Step(s.(isProcessing := true, isPaused := false, currentStatus := "Starting..."),
             Some(StartProcessing(StartMessage(q, s.currentTabId, Some(s.aspectRatio), Some(s.downloadFolder)))))
  }

  /** `togglePause`. */
  function TogglePauseStep(s: PopupState): Step {
    if s.isPaused then Step(s.(isPaused := false, currentStatus := "Resuming..."), Some(ResumeProcessing))
    else Step(s.(isPaused := true, currentStatus := "Paused"), Some(PauseProcessing))
  }

  /** `stopGeneration`, given the answer to its confirmation dialog. */
  function StopGenerationStep(s: PopupState, confirmed: bool): Step {
    if !confirmed then Step(s, None)
    else Step(s.(isProcessing := false, isPaused := false), Some(StopProcessing))
  }

  /** `startImageEdit`: refused without prompts or off Grok; otherwise the prompts are sent. */
  function StartImageEditStep(s: PopupState): Step {
    var prompts := GetEditPrompts(s.editPrompts);
    if prompts == [] || !s.onGrok then Step(s, None)
    else
      Step(s.(editIsProcessing := true, editIsPaused := false, editCurrentStatus := "Starting..."),
           Some(StartImageEdit(StartEditMessage(prompts, s.currentTabId, Some(s.editDelay),
                                                Some(OrElse(Some(s.editDownloadFolder), "grok-edits"))))))
  }

  /** `toggleEditPause`. */
  function ToggleEditPauseStep(s: PopupState): Step {
    if s.editIsPaused then Step(s.(editIsPaused := false, editCurrentStatus := "Resuming..."), Some(ResumeImageEdit))
    else Step(s.(editIsPaused := true, editCurrentStatus := "Paused"), Some(PauseImageEdit))
  }

  /** `stopImageEdit`, given the answer to its confirmation dialog. */
  function StopImageEditStep(s: PopupState, confirmed: bool): Step {
    if !confirmed then Step(s, None)
    else Step(s.(editIsProcessing := false, editIsPaused := false), Some(StopImageEdit))
  }

  /** `handlePromptsFileUpload`: no file, or one that cannot be read, changes nothing. */
  function PromptsUploaded(s: PopupState, file: Option<Result<string>>): PopupState {
    match file
    case None => s
    case Some(Failure(_)) => s
    case Some(Success(text)) => s.(editPrompts := AppendPrompts(s.editPrompts, text))
  }

  /** The first half of `refreshState`: the video flags come from the `getState` reply, and so may the status line. */
  function VideoRefreshed(s: PopupState, v: VideoStateView): PopupState {
    s.(isProcessing := v.isProcessing, isPaused := v.isPaused,
       currentStatus := VideoStatus(v).GetOr(s.currentStatus))
  }

  /** The second half: the edit flags come from the `getImageEditState` reply, and so may its status line. */
  function EditRefreshed(s: PopupState, e: EditStateView): PopupState {
    s.(editIsProcessing := e.isProcessing, editIsPaused := e.isPaused,
       editCurrentStatus := EditStatus(e, s.editIsProcessing).GetOr(s.editCurrentStatus))
  }

  /** `refreshState`: both halves, one after the other. */
  function Refreshed(s: PopupState, v: VideoStateView, e: EditStateView): PopupState {
    EditRefreshed(VideoRefreshed(s, v), e)
  }

  class PopupPage {
    var selectedFiles: seq<File>
    var isProcessing: bool
    var isPaused: bool
    var onGrok: bool
    var currentTabId: Option<int>
    var aspectRatio: string
    var downloadFolder: string
    var currentStatus: string
    var editPrompts: string
    var editIsProcessing: bool
    var editIsPaused: bool
    var editDelay: int
    var editDownloadFolder: string
    var editCurrentStatus: string

    function Snapshot(): PopupState
      reads this
    {
      PopupState(selectedFiles, isProcessing, isPaused, onGrok, currentTabId, aspectRatio, downloadFolder,
                 currentStatus, editPrompts, editIsProcessing, editIsPaused, editDelay, editDownloadFolder,
                 editCurrentStatus)
    }

    /**
     * The popup as it opens: the active tab, the badge, and the form values; the edit folder
     * field is set to "grok-edits" when the listeners are installed.
     */
    constructor (tabId: Option<int>, connected: bool, ratio: string, folder: string, delay: int)
      ensures Snapshot() == PopupState([], false, false, connected, tabId, ratio, folder, "",
                                       "", false, false, delay, "grok-edits", "")
    {
      selectedFiles, isProcessing, isPaused := [], false, false;
      onGrok, currentTabId := connected, tabId;
      aspectRatio, downloadFolder, currentStatus := ratio, folder, "";
      editPrompts, editIsProcessing, editIsPaused := "", false, false;
      editDelay, editDownloadFolder, editCurrentStatus := delay, "grok-edits", "";
    }

    method HandleFolderSelect(files: seq<File>)
      modifies this
      ensures Snapshot() == FolderSelected(old(Snapshot()), files)
    {
      var images := ImageFiles(files);
      if |images| > 0 {
        selectedFiles := images;
      }
    }

    method HandleFilesSelect(files: seq<File>)
      modifies this
      ensures Snapshot() == FilesSelected(old(Snapshot()), files)
    {
      var images := ImageFiles(files);
      if |images| > 0 {
        selectedFiles := selectedFiles + images;
      }
    }

    method ClearFiles()
      modifies this
      ensures Snapshot() == old(Snapshot()).(selectedFiles := [])
    {
      selectedFiles := [];
    }

    method StartGeneration(read: File -> Option<string>) returns (sent: Option<Request>)
      modifies this
      ensures var r := StartGenerationStep(old(Snapshot()), read);
        Snapshot() == r.state && sent == r.sent
    {
      if |selectedFiles| == 0 || !onGrok {
        return None;
      }
      var queue := BuildQueue(selectedFiles, read);
      if queue.None? {
        return None;
      }
      isProcessing := true;
      isPaused := false;
      sent := Some(StartProcessing(StartMessage(queue.value, currentTabId, Some(aspectRatio), Some(downloadFolder))));
      currentStatus := "Starting...";
    }

    method TogglePause() returns (sent: Option<Request>)
      modifies this
      ensures var r := TogglePauseStep(old(Snapshot()));
        Snapshot() == r.state && sent == r.sent
    {
      if isPaused {
        isPaused := false;
        sent := Some(ResumeProcessing);
        currentStatus := "Resuming...";
      } else {
        isPaused := true;
        sent := Some(PauseProcessing);
        currentStatus := "Paused";
      }
    }

    method StopGeneration(confirmed: bool) returns (sent: Option<Request>)
      modifies this
      ensures var r := StopGenerationStep(old(Snapshot()), confirmed);
        Snapshot() == r.state && sent == r.sent
    {
      if !confirmed {
        return None;
      }
      isProcessing := false;
      isPaused := false;
      sent := Some(StopProcessing);
    }

    method StartImageEdit() returns (sent: Option<Request>)
      modifies this
      ensures var r := StartImageEditStep(old(Snapshot()));
        Snapshot() == r.state && sent == r.sent
    {
      var prompts := GetEditPrompts(editPrompts);
      if prompts == [] || !onGrok {
        return None;
      }
      ghost var s0 := Snapshot();
      editIsProcessing := true;
      editIsPaused := false;
      sent := Some(Request.StartImageEdit(StartEditMessage(prompts, currentTabId, Some(editDelay),
                                                            Some(OrElse(Some(editDownloadFolder), "grok-edits")))));
      editCurrentStatus := "Starting...";
      assert Snapshot() == s0.(editIsProcessing := true, editIsPaused := false, editCurrentStatus := "Starting...");
    }

    method ToggleEditPause() returns (sent: Option<Request>)
      modifies this
      ensures var r := ToggleEditPauseStep(old(Snapshot()));
        Snapshot() == r.state && sent == r.sent
    {
      if editIsPaused {
        editIsPaused := false;
        sent := Some(ResumeImageEdit);
        editCurrentStatus := "Resuming...";
      } else {
        editIsPaused := true;
        sent := Some(PauseImageEdit);
        editCurrentStatus := "Paused";
      }
    }

    method StopImageEdit(confirmed: bool) returns (sent: Option<Request>)
      modifies this
      ensures var r := StopImageEditStep(old(Snapshot()), confirmed);
        Snapshot() == r.state && sent == r.sent
    {
      if !confirmed {
        return None;
      }
      editIsProcessing := false;
      editIsPaused := false;
      sent := Some(Request.StopImageEdit);
    }

    method HandlePromptsFileUpload(file: Option<Result<string>>)
      modifies this
      ensures Snapshot() == PromptsUploaded(old(Snapshot()), file)
    {
      if file.None? {
        return;
      }
      match file.value
      case Failure(_) =>
      case Success(text) =>
        editPrompts := AppendPrompts(editPrompts, text);
    }

    method RefreshState(v: VideoStateView, e: EditStateView)
      modifies this
      ensures Snapshot() == Refreshed(old(Snapshot()), v, e)
    {
      RefreshVideo(v);
      RefreshEdit(e);
    }

    method RefreshVideo(v: VideoStateView)
      modifies this
      ensures Snapshot() == VideoRefreshed(old(Snapshot()), v)
    {
      var status := VideoStatus(v);
      isProcessing := v.isProcessing;
      isPaused := v.isPaused;
      currentStatus := status.GetOr(currentStatus);
    }

    method RefreshEdit(e: EditStateView)
      modifies this
      ensures Snapshot() == EditRefreshed(old(Snapshot()), e)
    {
      var wasEditProcessing := editIsProcessing;
      var status := EditStatus(e, wasEditProcessing);
      editIsProcessing := e.isProcessing;
      editIsPaused := e.isPaused;
      editCurrentStatus := status.GetOr(editCurrentStatus);
    }
  }
}
