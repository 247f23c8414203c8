/** The dialog's static screens (lib/dialogConfig.ts): every state id, the prompt the
    robot speaks on it and the options it offers. */
module DialogConfig {
  import opened Wrappers

  datatype DialogStateId =
    | Welcome | Menu | What | Privacy | UploadConsent | UploadReady
    | SampleList | Scanning | Results | Error

  /** The string form of each id. */
  function StateName(id: DialogStateId): string {
    match id
    case Welcome => "welcome"
    case Menu => "menu"
    case What => "what"
    case Privacy => "privacy"
    case UploadConsent => "upload-consent"
    case UploadReady => "upload-ready"
    case SampleList => "sample-list"
    case Scanning => "scanning"
    case Results => "results"
    case Error => "error"
  }

  /** The five actions the option type admits. */
  datatype DialogAction = Close | StartUpload | StartSample | StartScan | Back

  /** `{ id, label, nextState?, action? }`: an absent field is `None`. */
  datatype DialogOption = DialogOption(
    id: string,
    labelText: string,
    nextState: Option<DialogStateId>,
    action: Option<DialogAction>)

  datatype DialogStateConfig = DialogStateConfig(
    id: DialogStateId,
    speaker: string,
    prompt: string,
    options: seq<DialogOption>)

  const DIALOG_SPEAKER := "HR-418 (Teapot)"

  function GoTo(id: string, labelText: string, next: DialogStateId): DialogOption {
    DialogOption(id, labelText, Some(next), None)
  }

  function Act(id: string, labelText: string, action: DialogAction): DialogOption {
    DialogOption(id, labelText, None, Some(action))
  }

  const BACK_TO_MENU := GoTo("back", "Never mind", Menu)

  const WELCOME_PROMPT :=
    "Welcome to the Galactic Career Center. I'm HR-418, designation Teapot. Please activate the scanner to begin your resume review when you're ready..."

  const WHAT_PROMPT :=
    "Scan a resume and recieve structured feedback. Upload your own or try a sample applicant.\n\nNote: listing \"fast learner\" will be verified."

  const PRIVACY_PROMPT :=
    "Resumes are parsed locally in your browser. We do not store files or results, and nothing is sent to third-party services."

  const UPLOAD_CONSENT_PROMPT :=
    "Before we scan a real resume, I need your consent to parse the file in your browser. We do not store the file or generated data. Ready?"

  const UPLOAD_READY_PROMPT :=
    "Choose a .pdf or .docx resume to scan. Files are parsed in your browser and never stored."

  const SAMPLE_LIST_PROMPT :=
    "Choose what to scan. Upload your own resume or pick a sample applicant."

  const MENU_PROMPT := "How can I assist you today?"

  const SCANNING_PROMPT := "Scanning resume..."

  const RESULTS_PROMPT := "Scan complete. Here are the highlights."

  const ERROR_PROMPT := "Hmm... looks like the scanner ran into trouble. Try again?"

  /** `DIALOG_STATES`: the entry recorded under each key, with its own `id` field. */
  function DialogStates(key: DialogStateId): DialogStateConfig {
    match key
    case Welcome => DialogStateConfig(Welcome, DIALOG_SPEAKER, WELCOME_PROMPT, [])
    case Menu => DialogStateConfig(Menu, DIALOG_SPEAKER, MENU_PROMPT, [
      GoTo("choose-resume", "Scan a resume", SampleList),
      GoTo("what", "What is your function?", What),
      GoTo("privacy", "Privacy / data handling", Privacy),
      GoTo("close", "Never mind", Welcome)])
    case What => DialogStateConfig(What, DIALOG_SPEAKER, WHAT_PROMPT, [BACK_TO_MENU])
    case Privacy => DialogStateConfig(Privacy, DIALOG_SPEAKER, PRIVACY_PROMPT, [BACK_TO_MENU])
    case UploadConsent => DialogStateConfig(UploadConsent, DIALOG_SPEAKER, UPLOAD_CONSENT_PROMPT, [
      GoTo("agree", "I agree", UploadReady),
      GoTo("use-sample", "Use a sample instead", SampleList),
      BACK_TO_MENU])
    case UploadReady => DialogStateConfig(UploadReady, DIALOG_SPEAKER, UPLOAD_READY_PROMPT,
      [Act("start-scan", "Begin scan", StartScan), BACK_TO_MENU])
    case SampleList => DialogStateConfig(SampleList, DIALOG_SPEAKER, SAMPLE_LIST_PROMPT, [BACK_TO_MENU])
    case Scanning => DialogStateConfig(Scanning, DIALOG_SPEAKER, SCANNING_PROMPT, [])
    case Results => DialogStateConfig(Results, DIALOG_SPEAKER, RESULTS_PROMPT, [
      GoTo("scan-again", "Scan another resume", SampleList),
      Act("close", "Close", Close)])
    case Error => DialogStateConfig(Error, DIALOG_SPEAKER, ERROR_PROMPT, [])
  }

  /** `getDialogStateConfig(id)`: `DIALOG_STATES[id]`. */
  function GetDialogStateConfig(id: DialogStateId): DialogStateConfig {
    DialogStates(id)
  }

  /** An option either moves to a state or runs an action, never both and never neither. */
  predicate OneOutcome(option: DialogOption) {
    option.nextState.Some? != option.action.Some?
  }

  // ------------------------------------------------------------- properties

  /** Looking a state up gives the entry recorded under that same id, spoken by the robot:
      every entry's `id` field agrees with its key. */
  lemma ConfigMatchesId(id: DialogStateId)
    ensures GetDialogStateConfig(id).id == id
    ensures GetDialogStateConfig(id).speaker == DIALOG_SPEAKER
  {
  }

  /** The screens without static options are exactly welcome, scanning and error. */
  lemma EmptyOptionScreens(id: DialogStateId)
    ensures |GetDialogStateConfig(id).options| == 0 <==> id == Welcome || id == Scanning || id == Error
  {
  }

  /** Every static option has exactly one outcome, and the only actions the table uses are
      "close" and "start-scan". */
  lemma {:induction false} OptionsAreWellFormed(id: DialogStateId)
    ensures var options := GetDialogStateConfig(id).options;
      forall i :: 0 <= i < |options| ==>
        OneOutcome(options[i])
        && (options[i].action.Some? ==> options[i].action == Some(Close) || options[i].action == Some(StartScan))
  {
    match id
    case Welcome =>
    case Menu =>
    case What =>
    case Privacy =>
    case UploadConsent =>
    case UploadReady =>
    case SampleList =>
    case Scanning =>
    case Results =>
    case Error =>
  }

  /** Every "back" option leads to the menu. */
  lemma {:induction false} BackLeadsToMenu(id: DialogStateId)
    ensures var options := GetDialogStateConfig(id).options;
      forall i :: 0 <= i < |options| && options[i].id == "back" ==>
        options[i].nextState == Some(Menu) && options[i].action.None?
  {
    match id
    case Welcome =>
    case Menu =>
      assert "what" != "back" by { assert "what"[0] == 'w'; }
    case What =>
    case Privacy =>
    case UploadConsent =>
    case UploadReady =>
    case SampleList =>
    case Scanning =>
    case Results =>
    case Error =>
  }

  /** The menu's "close" option is a move back to welcome, while the results screen's
      "close" is the close action. */
  lemma CloseOptions()
    ensures var menuClose := GetDialogStateConfig(Menu).options[3];
      menuClose.id == "close" && menuClose.nextState == Some(Welcome) && menuClose.action.None?
    ensures var resultsClose := GetDialogStateConfig(Results).options[1];
      resultsClose.id == "close" && resultsClose.action == Some(Close) && resultsClose.nextState.None?
  {
  }
}
