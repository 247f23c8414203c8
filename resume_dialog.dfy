/** What the résumé dialog derives from its state (components/scene/ResumeDialog.tsx): the
    prompt it speaks, whether that prompt animates, the options offered on the error
    screen, how many options the number keys may pick, what a number key does, and
    whether the dialog is drawn at all. */
module ResumeDialog {
  import opened Wrappers
  import opened ResumeFiles
  import opened DialogConfig
  import opened DialogState
  import opened DialogActions

  /** The kind of an entry of the résumé-source list. */
  datatype SourceKind = UploadSource | SampleSource

  /** An entry of `RESUME_SOURCE_OPTIONS`. */
  datatype SourceOption = SourceOption(id: string, kind: SourceKind)

  /** The line spoken on welcome after returning from the menu. */
  const RETURN_PROMPT := "Okay, activate the scanner when you're ready to begin."

  /** `isChaosError` */
  predicate IsChaosError(state: Dialog) {
    state.id == Error && state.selectedSampleId == Some(CHAOS_SAMPLE_ID)
  }

  /** An upload error is shown only when it is a non-empty string. */
  predicate HasErrorText(error: Option<string>) {
    error.Some? && error.value != ""
  }

  /** `resolvedPrompt` */
  function ResolvedPrompt(state: Dialog): string {
    if state.id == Error && HasErrorText(state.uploadError) then
      (if IsChaosError(state) then "..." + state.uploadError.value else state.uploadError.value)
    else if state.id == Welcome && state.hasReturnedToWelcome then RETURN_PROMPT
    else GetDialogStateConfig(state.id).prompt
  }

  /** `shouldAnimatePrompt` */
  predicate ShouldAnimatePrompt(state: Dialog) {
    (state.id == Welcome && !state.hasAnimatedWelcome && !state.hasReturnedToWelcome)
    || IsChaosError(state)
  }

  /** `errorBackState`: where "Go back" leads from the error screen. */
  function ErrorBackState(state: Dialog): DialogStateId {
    if state.lastScanSource == Some(Sample) then SampleList else UploadReady
  }

  const RETRY_SCAN_OPTION := DialogOption("retry-scan", "Try scan again", None, Some(StartScan))

  function GoBackOption(state: Dialog): DialogOption {
    DialogOption("go-back", "Go back", Some(ErrorBackState(state)), None)
  }

  /** `errorOptions` */
  function ErrorOptions(state: Dialog): seq<DialogOption> {
    (if state.resumeFile.Some? then [RETRY_SCAN_OPTION] else []) + [GoBackOption(state)]
  }

  /** `errorOptions` as the source builds it, by pushing onto an empty list. */
  method BuildErrorOptions(state: Dialog) returns (options: seq<DialogOption>)
    ensures options == ErrorOptions(state)
  {
    options := [];
    if state.resumeFile.Some? {
      options := options + [RETRY_SCAN_OPTION];
    }
    var errorBackState := if state.lastScanSource == Some(Sample) then SampleList else UploadReady;
    options := options + [DialogOption("go-back", "Go back", Some(errorBackState), None)];
  }

  /** `optionsCount`, for the source list `sources`. */
  function OptionsCount(state: Dialog, sources: seq<SourceOption>): nat {
    if state.id == Error then |ErrorOptions(state)|
    else if state.id == SampleList then |sources|
    else if state.id == Welcome || state.id == Scanning then 0
    else |GetDialogStateConfig(state.id).options|
  }

  /** `RESUME_SOURCE_OPTIONS.find(entry => entry.id === optionId)` */
  function FindSource(sources: seq<SourceOption>, optionId: string): (r: Option<SourceOption>)
    ensures r.Some? ==> r.value in sources && r.value.id == optionId
    ensures r.None? <==> forall i :: 0 <= i < |sources| ==> sources[i].id != optionId
    ensures r.Some? ==>
      exists i :: 0 <= i < |sources| && sources[i] == r.value && forall j :: 0 <= j < i ==> sources[j].id != optionId
    decreases |sources|
  {
    if sources == [] then None
    else if sources[0].id == optionId then Some(sources[0])
    else
      var rest := FindSource(sources[1..], optionId);
      assert forall i :: 1 <= i < |sources| ==> sources[i] == sources[1..][i - 1];
      if rest.Some? then
        ghost var k :| 0 <= k < |sources[1..]| && sources[1..][k] == rest.value
          && forall j :: 0 <= j < k ==> sources[1..][j].id != optionId;
        assert sources[k + 1] == rest.value;
        assert forall j :: 0 <= j < k + 1 ==> sources[j].id != optionId by {
          forall j | 0 <= j < k + 1
            ensures sources[j].id != optionId
          {
            if j > 0 {
              assert sources[j] == sources[1..][j - 1];
            }
          }
        }
        rest
      else rest
  }

  /** `handleSourceOptionSelect(optionId)` */
  function AfterSourceOptionSelect(state: Dialog, sources: seq<SourceOption>, optionId: string): Dialog {
    match FindSource(sources, optionId)
    case None => state
    case Some(option) =>
      if option.kind == UploadSource then AfterUploadResumeSelect(state)
      else AfterSampleSelect(state, option.id)
  }

  /** `handleNumberPress(index)` */
  function AfterNumberPress(state: Dialog, sources: seq<SourceOption>, index: int): Dialog {
    if state.id == Error then
      var options := ErrorOptions(state);
      if 0 <= index < |options| then AfterMenuOption(state, options[index]) else state
    else if state.id == SampleList then
      if 0 <= index < |sources| then AfterSourceOptionSelect(state, sources, sources[index].id) else state
    else
      var options := GetDialogStateConfig(state.id).options;
      if 0 <= index < |options| then AfterMenuOption(state, options[index]) else state
  }

  /** `handlePromptComplete` */
  function AfterPromptComplete(state: Dialog): Dialog {
    if state.id == Welcome then DialogReducer(state, WelcomeAnimated) else state
  }

  /** The visibility guard: the dialog is drawn unless it is closed away from the scanning
      and results screens. */
  predicate IsRendered(state: Dialog) {
    !(!state.isOpen && state.id != Scanning && state.id != Results)
  }

  // ------------------------------------------------------------- handlers

  method HandleSourceOptionSelect(store: DialogStore, sources: seq<SourceOption>, optionId: string)
    modifies store
    ensures store.state == AfterSourceOptionSelect(old(store.state), sources, optionId)
  {
    var option := FindSource(sources, optionId);
    if option.None? {
      return;
    }
    if option.value.kind == UploadSource {
      store.HandleUploadResumeSelect();
      return;
    }
    store.HandleSampleSelect(option.value.id);
  }

  method HandleNumberPress(store: DialogStore, sources: seq<SourceOption>, index: int)
    modifies store
    ensures store.state == AfterNumberPress(old(store.state), sources, index)
  {
    var state := store.state;
    if state.id == Error {
      var errorOptions := BuildErrorOptions(state);
      if 0 <= index < |errorOptions| {
        store.HandleMenuOption(errorOptions[index]);
      }
      return;
    }
    if state.id == SampleList {
      if !(0 <= index < |sources|) {
        return;
      }
      HandleSourceOptionSelect(store, sources, sources[index].id);
      return;
    }
    var options := GetDialogStateConfig(state.id).options;
    if 0 <= index < |options| {
      store.HandleMenuOption(options[index]);
    }
  }

  method HandlePromptComplete(store: DialogStore)
    modifies store
    ensures store.state == AfterPromptComplete(old(store.state))
  {
    if store.state.id == Welcome {
      store.Dispatch(WelcomeAnimated);
    }
  }

  // ------------------------------------------------------------- properties

  /** The error screen offers "Try scan again" first exactly when a file is held, and always
      ends with "Go back", which leads to the sample list exactly when the last scan was of
      a sample and to the upload screen otherwise. */
  lemma ErrorOptionsShape(state: Dialog)
    ensures var options := ErrorOptions(state);
      1 <= |options| <= 2
      && (|options| == 2 <==> state.resumeFile.Some?)
      && (state.resumeFile.Some? ==> options[0].id == "retry-scan" && options[0].action == Some(StartScan))
      && options[|options| - 1].id == "go-back" && options[|options| - 1].action.None?
      && (options[|options| - 1].nextState == Some(SampleList) <==> state.lastScanSource == Some(Sample))
      && (options[|options| - 1].nextState == Some(UploadReady) <==> state.lastScanSource != Some(Sample))
  {
  }

  /** Every error option has exactly one outcome, like the static ones. */
  lemma ErrorOptionsWellFormed(state: Dialog)
    ensures var options := ErrorOptions(state);
      forall i :: 0 <= i < |options| ==> OneOutcome(options[i])
  {
  }

  /** The dialog never speaks an empty prompt. */
  lemma PromptNeverEmpty(state: Dialog)
    ensures |ResolvedPrompt(state)| > 0
  {
    assert |RETURN_PROMPT| > 0;
    match state.id
    case Welcome => assert |WELCOME_PROMPT| > 0;
    case Menu => assert |MENU_PROMPT| > 0;
    case What => assert |WHAT_PROMPT| > 0;
    case Privacy => assert |PRIVACY_PROMPT| > 0;
    case UploadConsent => assert |UPLOAD_CONSENT_PROMPT| > 0;
    case UploadReady => assert |UPLOAD_READY_PROMPT| > 0;
    case SampleList => assert |SAMPLE_LIST_PROMPT| > 0;
    case Scanning => assert |SCANNING_PROMPT| > 0;
    case Results => assert |RESULTS_PROMPT| > 0;
    case Error => assert |ERROR_PROMPT| > 0;
  }

  /** Outside the error and welcome screens the prompt is the configured one; on the error
      screen with no error text it is too. */
  lemma PromptIsConfiguredElsewhere(state: Dialog)
    ensures (state.id != Error && state.id != Welcome) || (state.id == Error && !HasErrorText(state.uploadError))
      ==> ResolvedPrompt(state) == GetDialogStateConfig(state.id).prompt
  {
  }

  /** Picking the chaos sample lands on the error screen speaking its error after "...",
      animated, with only "Go back" to the sample list on offer. */
  lemma ChaosSampleScreen(state: Dialog)
    ensures var next := AfterStartSampleScan(state, CHAOS_SAMPLE_ID);
      IsChaosError(next)
      && ResolvedPrompt(next) == "..." + CHAOS_SAMPLE_ERROR
      && ShouldAnimatePrompt(next)
      && ErrorOptions(next) == [DialogOption("go-back", "Go back", Some(SampleList), None)]
  {
    StartSampleScanChaos(state);
    assert |CHAOS_SAMPLE_ERROR| > 0;
  }

  /** Starting a scan with no file lands on the error screen saying so, with only "Go back"
      to the upload screen on offer. The selected sample is kept, so a chaos sample still
      selected would make the message read as the chaos error, "..."-prefixed and animated. */
  lemma MissingFileScreen(state: Dialog)
    requires state.resumeFile.None?
    ensures var next := AfterStartScan(state, None);
      var chaos := state.selectedSampleId == Some(CHAOS_SAMPLE_ID);
      ResolvedPrompt(next) == (if chaos then "..." else "") + SELECT_RESUME_ERROR
      && (ShouldAnimatePrompt(next) <==> chaos)
      && ErrorOptions(next) == [DialogOption("go-back", "Go back", Some(UploadReady), None)]
  {
    StartScanWithoutFile(state);
    assert |SELECT_RESUME_ERROR| > 0;
  }

  /** On the error screen, key 1 with a file held retries the scan of that file. */
  lemma RetryScansHeldFile(state: Dialog, sources: seq<SourceOption>)
    requires state.id == Error && state.resumeFile.Some?
    ensures var next := AfterNumberPress(state, sources, 0);
      next.id == Scanning && next.pendingScan == Some(PendingScan(Upload, None, state.resumeFile))
  {
    assert ErrorOptions(state)[0] == RETRY_SCAN_OPTION;
    StartScanWithFile(state, None);
  }

  /** A number key outside the counted options does nothing. */
  lemma OutOfRangeKeyIgnored(state: Dialog, sources: seq<SourceOption>, index: int)
    requires index < 0 || index >= OptionsCount(state, sources)
    ensures AfterNumberPress(state, sources, index) == state
  {
    if state.id == Welcome || state.id == Scanning {
      EmptyOptionScreens(state.id);
    }
  }

  /** On the sample list a number key picks the source at that position, by its id. */
  lemma SampleListKeyPicksSource(state: Dialog, sources: seq<SourceOption>, index: int)
    requires state.id == SampleList && 0 <= index < |sources|
    requires forall i, j :: 0 <= i < j < |sources| ==> sources[i].id != sources[j].id
    ensures sources[index].kind == UploadSource ==>
      AfterNumberPress(state, sources, index) == AfterUploadResumeSelect(state)
    ensures sources[index].kind == SampleSource ==>
      AfterNumberPress(state, sources, index) == AfterSampleSelect(state, sources[index].id)
  {
    var found := FindSource(sources, sources[index].id);
    assert found.Some?;
    ghost var k :| 0 <= k < |sources| && sources[k] == found.value
      && forall j :: 0 <= j < k ==> sources[j].id != sources[index].id;
    assert k == index;
  }

  /** An unknown source id does nothing. */
  lemma UnknownSourceIgnored(state: Dialog, sources: seq<SourceOption>, optionId: string)
    requires forall i :: 0 <= i < |sources| ==> sources[i].id != optionId
    ensures AfterSourceOptionSelect(state, sources, optionId) == state
  {
  }

  /** The welcome prompt animates only until it has been spoken once. */
  lemma WelcomeAnimatesOnce(state: Dialog)
    requires state.id == Welcome
    ensures !ShouldAnimatePrompt(AfterPromptComplete(state))
    ensures AfterPromptComplete(state).hasAnimatedWelcome
  {
  }

  /** Finishing a prompt off welcome changes nothing. */
  lemma PromptCompleteElsewhere(state: Dialog)
    requires state.id != Welcome
    ensures AfterPromptComplete(state) == state
  {
  }

  /** An open dialog is always drawn; a closed one only on the scanning and results screens. */
  lemma RenderedIffOpenOrScanView(state: Dialog)
    ensures IsRendered(state) <==> state.isOpen || state.id == Scanning || state.id == Results
  {
  }

  /** Since no handler closes the dialog, it is drawn after any sequence of handler calls
      from the initial state. */
  lemma AlwaysRenderedFromStart(calls: seq<HandlerCall>)
    ensures IsRendered(PerformAll(INITIAL_DIALOG_STATE, calls))
  {
    HandlersKeepDialogOpen(INITIAL_DIALOG_STATE, calls);
  }
}
