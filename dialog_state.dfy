/** The dialog's state record and its reducer (lib/dialogState.ts). */
module DialogState {
  import opened Wrappers
  import opened ResumeFiles
  import opened ReviewTypes
  import opened DialogConfig

  datatype ScanSource = Upload | Sample

  datatype SidebarMode = SampleMode | ResultsMode

  /** `{ open, mode, sampleId? }`; a closed sidebar has no sample id. */
  datatype Sidebar = Sidebar(open: bool, mode: Option<SidebarMode>, sampleId: Option<string>)

  /** `{ source, sampleId?, file? }`; an absent and a null file are both `None`. */
  datatype PendingScan = PendingScan(source: ScanSource, sampleId: Option<string>, file: Option<ResumeFile>)

  datatype Dialog = Dialog(
    id: DialogStateId,
    isOpen: bool,
    selectedSampleId: Option<string>,
    lastScanSource: Option<ScanSource>,
    resumeFile: Option<ResumeFile>,
    uploadError: Option<string>,
    isUploading: bool,
    reviewResult: Option<ReviewResult>,
    sidebar: Sidebar,
    hasAnimatedWelcome: bool,
    hasReturnedToWelcome: bool,
    hasPlayedGreeting: bool,
    pendingScan: Option<PendingScan>)

  /** The events of `DialogEvent`, plus `SetScanAnimationCompleted`, which callers dispatch
      although the union does not declare it; the reducer's default branch receives it. */
  datatype DialogEvent =
    | OpenDialog
    | SetState(id: DialogStateId)
    | SetResumeFile(file: Option<ResumeFile>)
    | SetUploadError(error: Option<string>)
    | SetUploading(uploading: bool)
    | SetReviewResult(result: Option<ReviewResult>)
    | SelectSample(sampleId: Option<string>)
    | SetLastScanSource(source: Option<ScanSource>)
    | SetPendingScan(scan: Option<PendingScan>)
    | OpenSidebar(mode: SidebarMode, sidebarSampleId: Option<string>)
    | CloseSidebar
    | WelcomeAnimated
    | SetReturnedToWelcome(returned: bool)
    | SetPlayedGreeting(played: bool)
    | SetScanAnimationCompleted(completed: bool)

  const CLOSED_SIDEBAR := Sidebar(false, None, None)

  const INITIAL_DIALOG_STATE := Dialog(
    Welcome, true, None, None, None, None, false, None, CLOSED_SIDEBAR, false, false, false, None)

  /** `dialogReducer` */
  function DialogReducer(state: Dialog, event: DialogEvent): Dialog {
    match event
    case OpenDialog => state.(isOpen := true)
    case SetState(id) => state.(id := id)
    case SetResumeFile(file) => state.(resumeFile := file)
    case SetUploadError(error) => state.(uploadError := error)
    case SetUploading(uploading) => state.(isUploading := uploading)
    case SetReviewResult(result) => state.(reviewResult := result)
    case SelectSample(sampleId) => state.(selectedSampleId := sampleId)
    case SetLastScanSource(source) => state.(lastScanSource := source)
    case SetPendingScan(scan) => state.(pendingScan := scan)
    case OpenSidebar(mode, sampleId) => state.(sidebar := Sidebar(true, Some(mode), sampleId))
    case CloseSidebar => state.(sidebar := CLOSED_SIDEBAR)
    case WelcomeAnimated => state.(hasAnimatedWelcome := true)
    case SetReturnedToWelcome(returned) => state.(hasReturnedToWelcome := returned)
    case SetPlayedGreeting(played) => state.(hasPlayedGreeting := played)
    case SetScanAnimationCompleted(_) => state
  }

  /** The state after dispatching `events` in order. */
  function Run(state: Dialog, events: seq<DialogEvent>): Dialog
    decreases |events|
  {
    if events == [] then state else Run(DialogReducer(state, events[0]), events[1..])
  }

  // ------------------------------------------------------------- frames

  /** The fields of the state record. */
  datatype Field =
    | IdField | IsOpenField | SelectedSampleField | LastScanSourceField | ResumeFileField
    | UploadErrorField | UploadingField | ReviewResultField | SidebarField
    | AnimatedWelcomeField | ReturnedToWelcomeField | PlayedGreetingField | PendingScanField

  /** The field an event is named after, and so the only one it may write. */
  function Writes(event: DialogEvent): set<Field> {
    match event
    case OpenDialog => {IsOpenField}
    case SetState(_) => {IdField}
    case SetResumeFile(_) => {ResumeFileField}
    case SetUploadError(_) => {UploadErrorField}
    case SetUploading(_) => {UploadingField}
    case SetReviewResult(_) => {ReviewResultField}
    case SelectSample(_) => {SelectedSampleField}
    case SetLastScanSource(_) => {LastScanSourceField}
    case SetPendingScan(_) => {PendingScanField}
    case OpenSidebar(_, _) => {SidebarField}
    case CloseSidebar => {SidebarField}
    case WelcomeAnimated => {AnimatedWelcomeField}
    case SetReturnedToWelcome(_) => {ReturnedToWelcomeField}
    case SetPlayedGreeting(_) => {PlayedGreetingField}
    case SetScanAnimationCompleted(_) => {}
  }

  /** The fields some event of `events` writes. */
  function WritesAll(events: seq<DialogEvent>): set<Field>
    decreases |events|
  {
    if events == [] then {} else Writes(events[0]) + WritesAll(events[1..])
  }

  /** `a` and `b` agree on every field outside `fields`. */
  predicate AgreeOutside(a: Dialog, b: Dialog, fields: set<Field>) {
    (IdField !in fields ==> a.id == b.id)
    && (IsOpenField !in fields ==> a.isOpen == b.isOpen)
    && (SelectedSampleField !in fields ==> a.selectedSampleId == b.selectedSampleId)
    && (LastScanSourceField !in fields ==> a.lastScanSource == b.lastScanSource)
    && (ResumeFileField !in fields ==> a.resumeFile == b.resumeFile)
    && (UploadErrorField !in fields ==> a.uploadError == b.uploadError)
    && (UploadingField !in fields ==> a.isUploading == b.isUploading)
    && (ReviewResultField !in fields ==> a.reviewResult == b.reviewResult)
    && (SidebarField !in fields ==> a.sidebar == b.sidebar)
    && (AnimatedWelcomeField !in fields ==> a.hasAnimatedWelcome == b.hasAnimatedWelcome)
    && (ReturnedToWelcomeField !in fields ==> a.hasReturnedToWelcome == b.hasReturnedToWelcome)
    && (PlayedGreetingField !in fields ==> a.hasPlayedGreeting == b.hasPlayedGreeting)
    && (PendingScanField !in fields ==> a.pendingScan == b.pendingScan)
  }

  // ------------------------------------------------------------- properties

  /** The dialog starts open on welcome, with nothing selected, held or pending. */
  lemma InitialState()
    ensures var s := INITIAL_DIALOG_STATE;
      s.id == Welcome && s.isOpen
      && s.selectedSampleId.None? && s.lastScanSource.None? && s.resumeFile.None?
      && s.uploadError.None? && !s.isUploading && s.reviewResult.None?
      && !s.sidebar.open && s.sidebar.mode.None?
      && !s.hasAnimatedWelcome && !s.hasReturnedToWelcome && !s.hasPlayedGreeting
      && s.pendingScan.None?
  {
  }

  /** Each event changes at most the field it is named after. */
  lemma ReducerFrame(state: Dialog, event: DialogEvent)
    ensures AgreeOutside(state, DialogReducer(state, event), Writes(event))
  {
  }

  /** A sequence of events changes at most the fields its events are named after. */
  lemma {:induction false} RunFrame(state: Dialog, events: seq<DialogEvent>)
    ensures AgreeOutside(state, Run(state, events), WritesAll(events))
    decreases |events|
  {
    if events != [] {
      ReducerFrame(state, events[0]);
      RunFrame(DialogReducer(state, events[0]), events[1..]);
    }
  }

  /** Dispatching `a` and then `b` is dispatching `a + b`. */
  lemma {:induction false} RunAppend(state: Dialog, a: seq<DialogEvent>, b: seq<DialogEvent>)
    ensures Run(state, a + b) == Run(Run(state, a), b)
    decreases |a|
  {
    if a == [] {
      assert a + b == b;
    } else {
      assert (a + b)[1..] == a[1..] + b;
      RunAppend(DialogReducer(state, a[0]), a[1..], b);
    }
  }

  /** The event sets the field it names to the value it carries. */
  lemma SetEventsWriteTheirValue(state: Dialog, event: DialogEvent)
    ensures var next := DialogReducer(state, event);
      (event.SetState? ==> next.id == event.id)
      && (event.SetResumeFile? ==> next.resumeFile == event.file)
      && (event.SetUploadError? ==> next.uploadError == event.error)
      && (event.SetUploading? ==> next.isUploading == event.uploading)
      && (event.SetReviewResult? ==> next.reviewResult == event.result)
      && (event.SelectSample? ==> next.selectedSampleId == event.sampleId)
      && (event.SetLastScanSource? ==> next.lastScanSource == event.source)
      && (event.SetPendingScan? ==> next.pendingScan == event.scan)
      && (event.SetReturnedToWelcome? ==> next.hasReturnedToWelcome == event.returned)
      && (event.SetPlayedGreeting? ==> next.hasPlayedGreeting == event.played)
  {
  }

  /** Opening the sidebar records its mode and sample; closing it drops both. */
  lemma SidebarEvents(state: Dialog, mode: SidebarMode, sampleId: Option<string>)
    ensures DialogReducer(state, OpenSidebar(mode, sampleId)).sidebar == Sidebar(true, Some(mode), sampleId)
    ensures var closed := DialogReducer(state, CloseSidebar).sidebar;
      !closed.open && closed.mode.None? && closed.sampleId.None?
  {
  }

  /** No event closes the dialog. */
  lemma StaysOpen(state: Dialog, event: DialogEvent)
    ensures state.isOpen ==> DialogReducer(state, event).isOpen
    ensures event.OpenDialog? ==> DialogReducer(state, event).isOpen
  {
  }

  /** So every state reachable from the initial one is open. */
  lemma {:induction false} ReachableIsOpen(state: Dialog, events: seq<DialogEvent>)
    requires state.isOpen
    ensures Run(state, events).isOpen
    decreases |events|
  {
    if events != [] {
      StaysOpen(state, events[0]);
      ReachableIsOpen(DialogReducer(state, events[0]), events[1..]);
    }
  }

  /** The screen changes only through `SetState`. */
  lemma IdOnlyBySetState(state: Dialog, event: DialogEvent)
    ensures DialogReducer(state, event).id != state.id ==> event.SetState? && event.id != state.id
  {
  }

  /** A run that dispatches no `SetState` stays on its screen. */
  lemma {:induction false} RunWithoutSetStateKeepsId(state: Dialog, events: seq<DialogEvent>)
    requires forall i :: 0 <= i < |events| ==> !events[i].SetState?
    ensures Run(state, events).id == state.id
    decreases |events|
  {
    if events != [] {
      RunWithoutSetStateKeepsId(DialogReducer(state, events[0]), events[1..]);
    }
  }

  /** Once the welcome prompt has animated it stays animated. */
  lemma {:induction false} AnimatedWelcomeIsMonotone(state: Dialog, events: seq<DialogEvent>)
    ensures state.hasAnimatedWelcome ==> Run(state, events).hasAnimatedWelcome
    ensures WelcomeAnimated in events ==> Run(state, events).hasAnimatedWelcome
    decreases |events|
  {
    if events != [] {
      var next := DialogReducer(state, events[0]);
      AnimatedWelcomeIsMonotone(next, events[1..]);
      if WelcomeAnimated in events && events[0] != WelcomeAnimated {
        assert WelcomeAnimated in events[1..];
      }
    }
  }

  /** An event the union does not declare leaves the state as it was. */
  lemma UndeclaredEventIsIgnored(state: Dialog, completed: bool)
    ensures DialogReducer(state, SetScanAnimationCompleted(completed)) == state
  {
  }
}
