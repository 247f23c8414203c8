/** The dialog's action handlers (components/scene/hooks/useDialogActions.ts). Each handler
    dispatches an ordered sequence of reducer events chosen from the state the handler was
    created with. `AfterX(state, ...)` folds that sequence through the reducer, one
    `DialogReducer` application per dispatch in source order, and `DialogStore.HandleX`
    dispatches it. */
module DialogActions {
  import opened Wrappers
  import opened ResumeFiles
  import opened DialogConfig
  import opened DialogState

  /** `CHAOS_SAMPLE_ID` and `CHAOS_SAMPLE_ERROR` (components/scene/dialog-data.ts). */
  const CHAOS_SAMPLE_ID := "sample-chaos"
  const CHAOS_SAMPLE_ERROR :=
    "Hmm... looks like the scanner couldn't handle that many buzzwords. Maybe try a different resume?"

  /** The error shown when a scan starts with no file. */
  const SELECT_RESUME_ERROR := "Select a resume to continue."

  /** `clearScanState` */
  function AfterClearScanState(state: Dialog): Dialog {
    var s := DialogReducer(state, SetResumeFile(None));
    var s := DialogReducer(s, SetUploadError(None));
    var s := DialogReducer(s, SetUploading(false));
    var s := DialogReducer(s, SetReviewResult(None));
    var s := DialogReducer(s, SetPendingScan(None));
    var s := DialogReducer(s, SetScanAnimationCompleted(false));
    DialogReducer(s, SetLastScanSource(None))
  }

  /** `clearScanState` followed by clearing the selected sample and closing the sidebar, as
      both `setState("menu")` and "scan-again" do. */
  function AfterResetScan(state: Dialog): Dialog {
    var s := AfterClearScanState(state);
    var s := DialogReducer(s, SelectSample(None));
    DialogReducer(s, CloseSidebar)
  }

  /** `setState(next)` */
  function AfterSetState(state: Dialog, next: DialogStateId): Dialog {
    var s := if next == Menu then AfterResetScan(state) else state;
    DialogReducer(s, SetState(next))
  }

  /** `handleFileSelect(file)`: the new state ... */
  function AfterFileSelect(state: Dialog, file: Option<ResumeFile>): Dialog {
    match file
    case None => state
    case Some(f) =>
      match ValidateResumeFile(f)
      case Some(error) =>
        DialogReducer(DialogReducer(state, SetUploadError(Some(error))), SetResumeFile(None))
      case None =>
        DialogReducer(DialogReducer(state, SetResumeFile(file)), SetUploadError(None))
  }

  /** ... and the file it returns. */
  function FileSelectResult(file: Option<ResumeFile>): Option<ResumeFile> {
    match file
    case None => None
    case Some(f) => if ValidateResumeFile(f).Some? then None else file
  }

  /** `handleClearFile` */
  function AfterClearFile(state: Dialog): Dialog {
    DialogReducer(DialogReducer(state, SetResumeFile(None)), SetUploadError(None))
  }

  /** `handleStartScan(file)`; `state.resumeFile` is the file the handler's state holds. */
  function AfterStartScan(state: Dialog, file: Option<ResumeFile>): Dialog {
    var selected := if file.Some? then file else state.resumeFile;
    if selected.None? then
      var s := DialogReducer(state, SetLastScanSource(Some(Upload)));
      var s := DialogReducer(s, SetUploadError(Some(SELECT_RESUME_ERROR)));
      DialogReducer(s, SetState(Error))
    else
      var s := if file.Some? then DialogReducer(state, SetResumeFile(file)) else state;
      var s := DialogReducer(s, SetLastScanSource(Some(Upload)));
      var s := DialogReducer(s, SetUploadError(None));
      var s := DialogReducer(s, SetScanAnimationCompleted(false));
      var s := DialogReducer(s, CloseSidebar);
      var s := DialogReducer(s, SetState(Scanning));
      DialogReducer(s, SetPendingScan(Some(PendingScan(Upload, None, selected))))
  }

  /** `handleSampleSelect(sampleId)` */
  function AfterSampleSelect(state: Dialog, sampleId: string): Dialog {
    var s := DialogReducer(state, SelectSample(Some(sampleId)));
    var s := DialogReducer(s, SetResumeFile(None));
    var s := DialogReducer(s, SetUploadError(None));
    DialogReducer(s, OpenSidebar(SampleMode, Some(sampleId)))
  }

  /** `handleUploadResumeSelect` */
  function AfterUploadResumeSelect(state: Dialog): Dialog {
    var s := DialogReducer(state, SelectSample(None));
    var s := DialogReducer(s, SetUploadError(None));
    var s := DialogReducer(s, CloseSidebar);
    DialogReducer(s, SetState(UploadReady))
  }

  /** `handleStartSampleScan(sampleId)` */
  function AfterStartSampleScan(state: Dialog, sampleId: string): Dialog {
    var s := DialogReducer(state, SetLastScanSource(Some(Sample)));
    var s := DialogReducer(s, SelectSample(Some(sampleId)));
    var s := DialogReducer(s, SetResumeFile(None));
    if sampleId == CHAOS_SAMPLE_ID then
      var s := DialogReducer(s, SetUploadError(Some(CHAOS_SAMPLE_ERROR)));
      var s := DialogReducer(s, CloseSidebar);
      var s := DialogReducer(s, SetPendingScan(None));
      DialogReducer(s, SetState(Error))
    else
      var s := DialogReducer(s, SetUploadError(None));
      var s := DialogReducer(s, SetScanAnimationCompleted(false));
      var s := DialogReducer(s, CloseSidebar);
      var s := DialogReducer(s, SetState(Scanning));
      DialogReducer(s, SetPendingScan(Some(PendingScan(Sample, Some(sampleId), None))))
  }

  /** `handleMenuOption(option)`: the close and start-scan actions take precedence over a
      next state, and an option with neither does nothing. The screen tested is the one the
      handler's state was on. */
  function AfterMenuOption(state: Dialog, option: DialogOption): Dialog {
    if option.action == Some(Close) then AfterSetState(state, Menu)
    else if option.action == Some(StartScan) then AfterStartScan(state, None)
    else if option.nextState.None? then state
    else
      var s := if state.id == Results && option.id == "scan-again" then AfterResetScan(state) else state;
      var s := if state.id == Menu && option.id == "close" then DialogReducer(s, SetReturnedToWelcome(true)) else s;
      AfterSetState(s, option.nextState.value)
  }

  /** `handleSidebarOpenChange(open)` */
  function AfterSidebarOpenChange(state: Dialog, open: bool): Dialog {
    if open then state else DialogReducer(state, CloseSidebar)
  }

  /** One call of one of the handlers the hook returns. */
  datatype HandlerCall =
    | MenuOptionChosen(option: DialogOption)
    | SampleSelected(sampleId: string)
    | UploadResumeSelected
    | SampleScanStarted(scanSampleId: string)
    | ScanStarted(startFile: Option<ResumeFile>)
    | FileSelected(file: Option<ResumeFile>)
    | FileCleared
    | SidebarOpenChanged(open: bool)
    | MenuOpened

  function Perform(state: Dialog, call: HandlerCall): Dialog {
    match call
    case MenuOptionChosen(option) => AfterMenuOption(state, option)
    case SampleSelected(sampleId) => AfterSampleSelect(state, sampleId)
    case UploadResumeSelected => AfterUploadResumeSelect(state)
    case SampleScanStarted(sampleId) => AfterStartSampleScan(state, sampleId)
    case ScanStarted(file) => AfterStartScan(state, file)
    case FileSelected(file) => AfterFileSelect(state, file)
    case FileCleared => AfterClearFile(state)
    case SidebarOpenChanged(open) => AfterSidebarOpenChange(state, open)
    case MenuOpened => AfterSetState(state, Menu)
  }

  function PerformAll(state: Dialog, calls: seq<HandlerCall>): Dialog
    decreases |calls|
  {
    if calls == [] then state else PerformAll(Perform(state, calls[0]), calls[1..])
  }

  // ------------------------------------------------------------- the store

  /** The reducer-held dialog state that the handlers dispatch into. */
  class DialogStore {
    var state: Dialog

    constructor()
      ensures state == INITIAL_DIALOG_STATE
    {
      state := INITIAL_DIALOG_STATE;
    }

    /** `dispatch(event)` */
    method Dispatch(event: DialogEvent)
      modifies this
      ensures state == DialogReducer(old(state), event)
    {
      state := DialogReducer(state, event);
    }

    method ClearScanState()
      modifies this
      ensures state == AfterClearScanState(old(state))
    {
      Dispatch(SetResumeFile(None));
      Dispatch(SetUploadError(None));
      Dispatch(SetUploading(false));
      Dispatch(SetReviewResult(None));
      Dispatch(SetPendingScan(None));
      Dispatch(SetScanAnimationCompleted(false));
      Dispatch(SetLastScanSource(None));
    }

    method SetState(next: DialogStateId)
      modifies this
      ensures state == AfterSetState(old(state), next)
    {
      if next == Menu {
        ClearScanState();
        Dispatch(SelectSample(None));
        Dispatch(CloseSidebar);
      }
      Dispatch(DialogEvent.SetState(next));
    }

    method OpenMenu()
      modifies this
      ensures state == AfterSetState(old(state), Menu)
    {
      SetState(Menu);
    }

    method HandleFileSelect(file: Option<ResumeFile>) returns (kept: Option<ResumeFile>)
      modifies this
      ensures state == AfterFileSelect(old(state), file)
      ensures kept == FileSelectResult(file)
    {
      if file.None? {
        return None;
      }
      var error := ValidateResumeFile(file.value);
      if error.Some? {
        Dispatch(SetUploadError(error));
        Dispatch(SetResumeFile(None));
        return None;
      }
      Dispatch(SetResumeFile(file));
      Dispatch(SetUploadError(None));
      return file;
    }

    method HandleClearFile()
      modifies this
      ensures state == AfterClearFile(old(state))
    {
      Dispatch(SetResumeFile(None));
      Dispatch(SetUploadError(None));
    }

    method HandleStartScan(file: Option<ResumeFile>)
      modifies this
      ensures state == AfterStartScan(old(state), file)
    {
      var selected := if file.Some? then file else state.resumeFile;
      if selected.None? {
        Dispatch(SetLastScanSource(Some(Upload)));
        Dispatch(SetUploadError(Some(SELECT_RESUME_ERROR)));
        Dispatch(DialogEvent.SetState(Error));
        return;
      }
      if file.Some? {
        Dispatch(SetResumeFile(file));
      }
      Dispatch(SetLastScanSource(Some(Upload)));
      Dispatch(SetUploadError(None));
      Dispatch(SetScanAnimationCompleted(false));
      Dispatch(CloseSidebar);
      Dispatch(DialogEvent.SetState(Scanning));
      Dispatch(SetPendingScan(Some(PendingScan(Upload, None, selected))));
    }

    method HandleSampleSelect(sampleId: string)
      modifies this
      ensures state == AfterSampleSelect(old(state), sampleId)
    {
      Dispatch(SelectSample(Some(sampleId)));
      Dispatch(SetResumeFile(None));
      Dispatch(SetUploadError(None));
      Dispatch(OpenSidebar(SampleMode, Some(sampleId)));
    }

    method HandleUploadResumeSelect()
      modifies this
      ensures state == AfterUploadResumeSelect(old(state))
    {
      Dispatch(SelectSample(None));
      Dispatch(SetUploadError(None));
      Dispatch(CloseSidebar);
      Dispatch(DialogEvent.SetState(UploadReady));
    }

    method HandleStartSampleScan(sampleId: string)
      modifies this
      ensures state == AfterStartSampleScan(old(state), sampleId)
    {
      Dispatch(SetLastScanSource(Some(Sample)));
      Dispatch(SelectSample(Some(sampleId)));
      Dispatch(SetResumeFile(None));
      if sampleId == CHAOS_SAMPLE_ID {
        Dispatch(SetUploadError(Some(CHAOS_SAMPLE_ERROR)));
        Dispatch(CloseSidebar);
        Dispatch(SetPendingScan(None));
        Dispatch(DialogEvent.SetState(Error));
        return;
      }
      Dispatch(SetUploadError(None));
      Dispatch(SetScanAnimationCompleted(false));
      Dispatch(CloseSidebar);
      Dispatch(DialogEvent.SetState(Scanning));
      Dispatch(SetPendingScan(Some(PendingScan(Sample, Some(sampleId), None))));
    }

    method HandleMenuOption(option: DialogOption)
      modifies this
      ensures state == AfterMenuOption(old(state), option)
    {
      var current := state;
      if option.action == Some(Close) {
        SetState(Menu);
        return;
      }
      if option.action == Some(StartScan) {
        HandleStartScan(None);
        return;
      }
      if option.nextState.Some? {
        if current.id == Results && option.id == "scan-again" {
          ClearScanState();
          Dispatch(SelectSample(None));
          Dispatch(CloseSidebar);
        }
        if current.id == Menu && option.id == "close" {
          Dispatch(SetReturnedToWelcome(true));
        }
        SetState(option.nextState.value);
      }
    }

    method HandleSidebarOpenChange(open: bool)
      modifies this
      ensures state == AfterSidebarOpenChange(old(state), open)
    {
      if !open {
        Dispatch(CloseSidebar);
      }
    }
  }

  // ------------------------------------------------------------- properties

  /** `next` holds no file, error, upload, review, pending scan, last source, selected
      sample or open sidebar, and keeps `state`'s open flag and welcome flags. */
  predicate ScanCleared(next: Dialog, state: Dialog) {
    next.resumeFile.None? && next.uploadError.None? && !next.isUploading
    && next.reviewResult.None? && next.pendingScan.None? && next.lastScanSource.None?
    && next.selectedSampleId.None? && next.sidebar == CLOSED_SIDEBAR
    && next.isOpen == state.isOpen && next.hasAnimatedWelcome == state.hasAnimatedWelcome
    && next.hasReturnedToWelcome == state.hasReturnedToWelcome
    && next.hasPlayedGreeting == state.hasPlayedGreeting
  }

  /** Resetting the scan clears it and stays on the screen. */
  lemma ResetScanClears(state: Dialog)
    ensures AfterResetScan(state).id == state.id && ScanCleared(AfterResetScan(state), state)
  {
  }


  /** Going to the menu clears the file, the error, the upload flag, the review, the pending
      scan, the last source, the selected sample and the sidebar; the open flag and the
      three welcome flags are kept. */
  lemma SetStateToMenuClears(state: Dialog)
    ensures var next := AfterSetState(state, Menu);
      next.id == Menu && ScanCleared(next, state)
  {
    ResetScanClears(state);
  }

  /** Going anywhere but the menu only changes the screen. */
  lemma SetStateElsewhere(state: Dialog, next: DialogStateId)
    requires next != Menu
    ensures AfterSetState(state, next) == state.(id := next)
  {
  }

  /** The menu's "Never mind" option, chosen on the menu, returns to welcome and records
      the return; nothing else changes. */
  lemma MenuCloseReturnsToWelcome(state: Dialog)
    requires state.id == Menu
    ensures var next := AfterMenuOption(state, GetDialogStateConfig(Menu).options[3]);
      next == state.(id := Welcome, hasReturnedToWelcome := true)
  {
    CloseOptions();
  }

  /** The results screen's "Close" action goes to the menu, which clears the scan. */
  lemma ResultsCloseGoesToMenu(state: Dialog)
    ensures var next := AfterMenuOption(state, GetDialogStateConfig(Results).options[1]);
      next.id == Menu && next.resumeFile.None? && next.reviewResult.None?
      && next.pendingScan.None? && next.lastScanSource.None? && next.selectedSampleId.None?
      && next.sidebar == CLOSED_SIDEBAR && next.hasReturnedToWelcome == state.hasReturnedToWelcome
  {
    CloseOptions();
    SetStateToMenuClears(state);
  }

  /** "Scan another resume" on the results screen clears the finished scan and returns to
      the sample list, keeping the welcome flags. */
  lemma ScanAgainResets(state: Dialog)
    requires state.id == Results
    ensures var next := AfterMenuOption(state, GetDialogStateConfig(Results).options[0]);
      next.id == SampleList && ScanCleared(next, state)
  {
    var option := GetDialogStateConfig(Results).options[0];
    assert option == GoTo("scan-again", "Scan another resume", SampleList);
    ResetScanClears(state);
    SetStateElsewhere(AfterResetScan(state), SampleList);
  }

  /** Any other option that names a next state other than the menu only moves there. */
  lemma PlainNavigation(state: Dialog, option: DialogOption, target: DialogStateId)
    requires option.action.None? && option.nextState == Some(target) && target != Menu
    requires !(state.id == Results && option.id == "scan-again")
    requires !(state.id == Menu && option.id == "close")
    ensures AfterMenuOption(state, option) == state.(id := target)
  {
  }

  /** An option with neither an action nor a next state does nothing, and an action other
      than close or start-scan is ignored unless the option also names a state. */
  lemma InertOptions(state: Dialog, option: DialogOption)
    requires option.action != Some(Close) && option.action != Some(StartScan) && option.nextState.None?
    ensures AfterMenuOption(state, option) == state
  {
  }

  /** Starting a scan with no file given and none held reports the missing file and moves
      to the error screen; the pending scan and the sidebar are left as they were. */
  lemma StartScanWithoutFile(state: Dialog)
    requires state.resumeFile.None?
    ensures var next := AfterStartScan(state, None);
      next == state.(lastScanSource := Some(Upload), uploadError := Some(SELECT_RESUME_ERROR), id := Error)
  {
  }

  /** Starting a scan with a file (the one given, else the one held) holds that file,
      queues an upload scan of it, closes the sidebar and moves to scanning. */
  lemma StartScanWithFile(state: Dialog, file: Option<ResumeFile>)
    requires file.Some? || state.resumeFile.Some?
    ensures var selected := if file.Some? then file else state.resumeFile;
      var next := AfterStartScan(state, file);
      next == state.(
        resumeFile := selected,
        lastScanSource := Some(Upload),
        uploadError := None,
        sidebar := CLOSED_SIDEBAR,
        id := Scanning,
        pendingScan := Some(PendingScan(Upload, None, selected)))
  {
  }

  /** The "Begin scan" option on the upload screen scans the held file, or reports that
      there is none. */
  lemma BeginScanOption(state: Dialog)
    ensures var next := AfterMenuOption(state, GetDialogStateConfig(UploadReady).options[0]);
      (state.resumeFile.Some? ==>
        next.id == Scanning && next.pendingScan == Some(PendingScan(Upload, None, state.resumeFile)))
      && (state.resumeFile.None? ==>
        next.id == Error && next.uploadError == Some(SELECT_RESUME_ERROR) && next.pendingScan == state.pendingScan)
  {
    if state.resumeFile.Some? {
      StartScanWithFile(state, None);
    } else {
      StartScanWithoutFile(state);
    }
  }

  /** The chaos sample never scans: it reports its fixed error, drops any pending scan and
      moves to the error screen. */
  lemma StartSampleScanChaos(state: Dialog)
    ensures AfterStartSampleScan(state, CHAOS_SAMPLE_ID) == state.(
      lastScanSource := Some(Sample),
      selectedSampleId := Some(CHAOS_SAMPLE_ID),
      resumeFile := None,
      uploadError := Some(CHAOS_SAMPLE_ERROR),
      sidebar := CLOSED_SIDEBAR,
      pendingScan := None,
      id := Error)
  {
  }

  /** Any other sample is selected, and a sample scan of it is queued on the scanning screen. */
  lemma StartSampleScanOther(state: Dialog, sampleId: string)
    requires sampleId != CHAOS_SAMPLE_ID
    ensures AfterStartSampleScan(state, sampleId) == state.(
      lastScanSource := Some(Sample),
      selectedSampleId := Some(sampleId),
      resumeFile := None,
      uploadError := None,
      sidebar := CLOSED_SIDEBAR,
      id := Scanning,
      pendingScan := Some(PendingScan(Sample, Some(sampleId), None)))
  {
  }

  /** Picking a sample selects it, drops any held file and error and shows it in the
      sidebar, without leaving the screen or touching the pending scan. */
  lemma SampleSelectOpensSidebar(state: Dialog, sampleId: string)
    ensures AfterSampleSelect(state, sampleId) == state.(
      selectedSampleId := Some(sampleId),
      resumeFile := None,
      uploadError := None,
      sidebar := Sidebar(true, Some(SampleMode), Some(sampleId)))
  {
  }

  /** Choosing to upload deselects the sample, clears the error, closes the sidebar and
      moves to the upload screen. */
  lemma UploadResumeSelectMovesToUpload(state: Dialog)
    ensures AfterUploadResumeSelect(state) == state.(
      selectedSampleId := None, uploadError := None, sidebar := CLOSED_SIDEBAR, id := UploadReady)
  {
  }

  /** No file changes nothing; a refused file records the validator's message and drops
      the held file; an accepted one is held, clears the error and is returned. */
  lemma FileSelectOutcomes(state: Dialog, file: Option<ResumeFile>)
    ensures file.None? ==> AfterFileSelect(state, file) == state
    ensures file.Some? && ValidateResumeFile(file.value).Some? ==>
      AfterFileSelect(state, file) == state.(uploadError := ValidateResumeFile(file.value), resumeFile := None)
    ensures file.Some? && ValidateResumeFile(file.value).None? ==>
      AfterFileSelect(state, file) == state.(resumeFile := file, uploadError := None)
    ensures FileSelectResult(file).Some? <==> file.Some? && ValidateResumeFile(file.value).None?
    ensures FileSelectResult(file).Some? ==> FileSelectResult(file) == file
    ensures AfterFileSelect(state, file).resumeFile == (if file.None? then state.resumeFile else FileSelectResult(file))
  {
  }

  /** Clearing the file drops the held file and its error and nothing else. */
  lemma ClearFileDropsFile(state: Dialog)
    ensures AfterClearFile(state) == state.(resumeFile := None, uploadError := None)
  {
  }

  /** Opening the sidebar from outside changes nothing; closing it closes it. */
  lemma SidebarOpenChange(state: Dialog, open: bool)
    ensures open ==> AfterSidebarOpenChange(state, open) == state
    ensures !open ==> AfterSidebarOpenChange(state, open) == state.(sidebar := CLOSED_SIDEBAR)
  {
  }

  /** `next` has `state`'s open flag, welcome-animation flag and greeting flag. */
  predicate SameFlags(next: Dialog, state: Dialog) {
    next.isOpen == state.isOpen && next.hasAnimatedWelcome == state.hasAnimatedWelcome
    && next.hasPlayedGreeting == state.hasPlayedGreeting
  }

  /** `setState` keeps the flags and the return-to-welcome mark. */
  lemma SetStateKeepsFlags(state: Dialog, next: DialogStateId)
    ensures SameFlags(AfterSetState(state, next), state)
    ensures AfterSetState(state, next).hasReturnedToWelcome == state.hasReturnedToWelcome
  {
    ResetScanClears(state);
  }

  /** `handleStartScan` keeps the flags and the return-to-welcome mark. */
  lemma StartScanKeepsFlags(state: Dialog, file: Option<ResumeFile>)
    ensures SameFlags(AfterStartScan(state, file), state)
    ensures AfterStartScan(state, file).hasReturnedToWelcome == state.hasReturnedToWelcome
  {
    if file.Some? || state.resumeFile.Some? {
      StartScanWithFile(state, file);
    } else {
      StartScanWithoutFile(state);
    }
  }

  /** `handleStartSampleScan` keeps the flags and the return-to-welcome mark. */
  lemma StartSampleScanKeepsFlags(state: Dialog, sampleId: string)
    ensures SameFlags(AfterStartSampleScan(state, sampleId), state)
    ensures AfterStartSampleScan(state, sampleId).hasReturnedToWelcome == state.hasReturnedToWelcome
  {
    if sampleId == CHAOS_SAMPLE_ID {
      StartSampleScanChaos(state);
    } else {
      StartSampleScanOther(state, sampleId);
    }
  }

  /** `handleMenuOption` keeps the flags, and marks the return to welcome exactly when the
      menu's own "close" option is followed as a move. */
  lemma MenuOptionFlags(state: Dialog, option: DialogOption)
    ensures SameFlags(AfterMenuOption(state, option), state)
    ensures AfterMenuOption(state, option).hasReturnedToWelcome ==
      (state.hasReturnedToWelcome
       || (state.id == Menu && option.id == "close" && option.nextState.Some?
           && option.action != Some(Close) && option.action != Some(StartScan)))
  {
    if option.action == Some(Close) {
      SetStateKeepsFlags(state, Menu);
    } else if option.action == Some(StartScan) {
      StartScanKeepsFlags(state, None);
    } else if option.nextState.Some? {
      ResetScanClears(state);
      var s := if state.id == Results && option.id == "scan-again" then AfterResetScan(state) else state;
      var s' := if state.id == Menu && option.id == "close" then DialogReducer(s, SetReturnedToWelcome(true)) else s;
      SetStateKeepsFlags(s', option.nextState.value);
    }
  }

  /** No handler opens or closes the dialog, or touches the welcome-animation and greeting
      flags, which only the scene's effects set; only the menu's "close" option, chosen on
      the menu, marks the return to welcome. */
  lemma PerformKeepsFlags(state: Dialog, call: HandlerCall)
    ensures SameFlags(Perform(state, call), state)
    ensures !call.MenuOptionChosen? ==> Perform(state, call).hasReturnedToWelcome == state.hasReturnedToWelcome
  {
    match call
    case MenuOptionChosen(option) => MenuOptionFlags(state, option);
    case SampleScanStarted(sampleId) => StartSampleScanKeepsFlags(state, sampleId);
    case ScanStarted(file) => StartScanKeepsFlags(state, file);
    case MenuOpened => SetStateKeepsFlags(state, Menu);
    case _ =>
  }

  /** So any sequence of handler calls from an open dialog leaves it open, with those flags
      as they were. */
  lemma {:induction false} HandlersKeepDialogOpen(state: Dialog, calls: seq<HandlerCall>)
    ensures SameFlags(PerformAll(state, calls), state)
    decreases |calls|
  {
    if calls != [] {
      PerformKeepsFlags(state, calls[0]);
      HandlersKeepDialogOpen(Perform(state, calls[0]), calls[1..]);
    }
  }

  /** The only handler call that marks the return to welcome is the menu's "close" option
      chosen on the menu as a move. */
  lemma ReturnedToWelcomeOnlyFromMenuClose(state: Dialog, call: HandlerCall)
    requires !state.hasReturnedToWelcome
    ensures var next := Perform(state, call);
      next.hasReturnedToWelcome ==>
        state.id == Menu && call.MenuOptionChosen? && call.option.id == "close"
        && call.option.action != Some(Close) && call.option.action != Some(StartScan)
        && call.option.nextState.Some?
  {
    PerformKeepsFlags(state, call);
    if call.MenuOptionChosen? {
      MenuOptionFlags(state, call.option);
    }
  }
}
