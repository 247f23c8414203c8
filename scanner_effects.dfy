/** The scan lifecycle of the dialog (components/scene/hooks/useDialogScannerEffects.ts).
    A pending scan is consumed by bumping a generation counter, the scan token, and
    capturing it; every asynchronous step that follows (the extraction finishing, the
    delay timer firing, the review finishing) carries the token it captured and writes to
    the dialog only while the dialog is open and that token is still current.

    React's scheduling is replaced by explicit events: each effect body and each
    completion is one call, and the caller decides when it happens. */
module ScannerEffects {
  import opened Wrappers
  import opened ResumeFiles
  import opened ReviewTypes
  import opened DialogConfig
  import opened DialogState
  import opened DialogActions

  /** `SCAN_DELAY_MS` */
  const SCAN_DELAY_MS: nat := 2200

  const UPLOAD_FAILED := "Upload failed. Please try again."
  const SCAN_FAILED := "Scan failed. Please try again."

  /** A review the timer callback will start, with the token its scan captured. */
  datatype ReviewJob = ReviewJob(scanToken: nat, request: ReviewRequest)

  /** A pending `setTimeout` callback. */
  datatype Timer = Timer(delayMs: nat, job: ReviewJob)

  /** An extraction `parseAndScan` started, with the token its scan captured. */
  datatype ExtractionJob = ExtractionJob(scanToken: nat, file: ResumeFile)

  /** The hook's three refs, `scanTokenRef`, `scanTimeoutRef` and `isOpenRef`, and the
      timers not yet fired or cleared, keyed by handle. Handles are positive, so a held
      handle is always truthy. */
  datatype Refs = Refs(
    token: nat,
    timeout: Option<nat>,
    isOpen: bool,
    timers: map<nat, Timer>,
    nextHandle: nat)

  /** The refs together with the dialog state they dispatch into. */
  datatype World = World(refs: Refs, dialog: Dialog)

  /** The refs when the hook first runs against `isOpen`. */
  function InitialRefs(isOpen: bool): Refs {
    Refs(0, None, isOpen, map[], 1)
  }

  /** Every timer and the held handle were issued, and no job carries a token from the
      future. */
  predicate ValidRefs(refs: Refs) {
    refs.nextHandle >= 1
    && (forall h :: h in refs.timers ==> 1 <= h < refs.nextHandle && refs.timers[h].job.scanToken <= refs.token)
    && (refs.timeout.Some? ==> 1 <= refs.timeout.value < refs.nextHandle)
  }

  /** A completion that captured `scanToken` may still write. */
  predicate IsCurrent(refs: Refs, scanToken: nat) {
    refs.isOpen && refs.token == scanToken
  }

  /** `setTimeout(callback, SCAN_DELAY_MS)`, holding the new handle in the timeout ref. */
  function Schedule(refs: Refs, job: ReviewJob): Refs {
    refs.(
      timers := refs.timers[refs.nextHandle := Timer(SCAN_DELAY_MS, job)],
      timeout := Some(refs.nextHandle),
      nextHandle := refs.nextHandle + 1)
  }

  /** `clearTimeout(scanTimeoutRef.current)` when a handle is held; the ref itself is kept. */
  function ClearHeldTimer(refs: Refs): Refs {
    if refs.timeout.Some? then refs.(timers := refs.timers - {refs.timeout.value}) else refs
  }

  // ------------------------------------------------------------- effects

  /** The open-state effect: record the open flag, and on a close while a handle is held,
      clear that timer, drop the handle and bump the token. */
  function AfterOpenChange(refs: Refs, isOpen: bool): Refs {
    var refs := refs.(isOpen := isOpen);
    if !isOpen && refs.timeout.Some? then
      refs.(timers := refs.timers - {refs.timeout.value}, timeout := None, token := refs.token + 1)
    else refs
  }

  /** The unmount cleanup: clear the held timer. */
  function AfterUnmount(refs: Refs): Refs {
    ClearHeldTimer(refs)
  }

  /** What the pending-scan effect leaves behind, and the extraction it starts if any. */
  datatype Activation = Activation(world: World, extraction: Option<ExtractionJob>)

  /** The pending-scan effect, run against the dialog state of that render. */
  function Activate(world: World): Activation {
    var dialog := world.dialog;
    if dialog.pendingScan.None? then Activation(world, None)
    else
      var pending := dialog.pendingScan.value;
      var token := world.refs.token + 1;
      var refs := ClearHeldTimer(world.refs.(token := token));
      var d := DialogReducer(dialog, SetPendingScan(None));
      var d := DialogReducer(d, SetReviewResult(None));
      var d := DialogReducer(d, SetUploadError(None));
      if pending.source == Sample then
        var source := ReviewSource(pending.sampleId.GetOr("sample"), "Sample resume");
        Activation(World(Schedule(refs, ReviewJob(token, ReviewRequest(source, None))), d), None)
      else
        var file := if pending.file.Some? then pending.file else dialog.resumeFile;
        if file.None? then
          if IsCurrent(refs, token) then
            var d := DialogReducer(d, SetUploadError(Some(SELECT_RESUME_ERROR)));
            Activation(World(refs, DialogReducer(d, SetState(Error))), None)
          else Activation(World(refs, d), None)
        else
          Activation(World(refs, DialogReducer(d, SetUploading(true))), Some(ExtractionJob(token, file.value)))
  }

  /** `parseAndScan` after the extraction settles: on text, schedule the review of it; on a
      failure, show the error's message or the fixed one; then, finally, clear the
      uploading flag. Each step writes only while `scanToken` is current. */
  function AfterExtraction(world: World, scanToken: nat, outcome: Result<string, Option<string>>): World {
    var refs := world.refs;
    if !IsCurrent(refs, scanToken) then world
    else
      match outcome
      case Ok(text) =>
        var source := ReviewSource("upload", "Uploaded resume");
        var refs := Schedule(refs, ReviewJob(scanToken, ReviewRequest(source, Some(text))));
        World(refs, DialogReducer(world.dialog, SetUploading(false)))
      case Err(message) =>
        var d := DialogReducer(world.dialog, SetUploadError(Some(message.GetOr(UPLOAD_FAILED))));
        var d := DialogReducer(d, SetState(Error));
        World(refs, DialogReducer(d, SetUploading(false)))
  }

  /** A timer fires: it is no longer pending, and its callback starts the review of its job.
      The timeout ref is not cleared. */
  function AfterTimerFires(refs: Refs, handle: nat): Refs {
    refs.(timers := refs.timers - {handle})
  }

  /** The job the firing timer starts, if `handle` is still pending. */
  function FiredJob(refs: Refs, handle: nat): Option<ReviewJob> {
    if handle in refs.timers then Some(refs.timers[handle].job) else None
  }

  /** `runReview` after the review settles: show the result and open the results sidebar,
      or show the error's message or the fixed one, while `scanToken` is current. */
  function AfterReview(world: World, scanToken: nat, outcome: Result<ReviewResult, Option<string>>): Dialog {
    if !IsCurrent(world.refs, scanToken) then world.dialog
    else
      match outcome
      case Ok(result) =>
        var d := DialogReducer(world.dialog, SetReviewResult(Some(result)));
        var d := DialogReducer(d, SetState(Results));
        DialogReducer(d, OpenSidebar(ResultsMode, None))
      case Err(message) =>
        var d := DialogReducer(world.dialog, SetUploadError(Some(message.GetOr(SCAN_FAILED))));
        DialogReducer(d, SetState(Error))
  }

  // ------------------------------------------------------------- the hook

  /** The hook's refs, bound to the dialog store it dispatches into. */
  class Scanner {
    var token: nat
    var timeout: Option<nat>
    var isOpen: bool
    var timers: map<nat, Timer>
    var nextHandle: nat
    const store: DialogStore

    function CurrentRefs(): Refs
      reads this
    {
      Refs(token, timeout, isOpen, timers, nextHandle)
    }

    function CurrentWorld(): World
      reads this, store
    {
      World(CurrentRefs(), store.state)
    }

    constructor(store: DialogStore)
      ensures this.store == store
      ensures CurrentRefs() == InitialRefs(store.state.isOpen)
    {
      this.store := store;
      token := 0;
      timeout := None;
      isOpen := store.state.isOpen;
      timers := map[];
      nextHandle := 1;
    }

    method SetTimer(job: ReviewJob)
      modifies this
      ensures CurrentRefs() == Schedule(old(CurrentRefs()), job)
    {
      timers := timers[nextHandle := Timer(SCAN_DELAY_MS, job)];
      timeout := Some(nextHandle);
      nextHandle := nextHandle + 1;
    }

    method ClearTimer()
      modifies this
      ensures CurrentRefs() == ClearHeldTimer(old(CurrentRefs()))
    {
      if timeout.Some? {
        timers := timers - {timeout.value};
      }
    }

    /** The effect on `state.isOpen`. */
    method OnOpenChange()
      modifies this
      ensures CurrentRefs() == AfterOpenChange(old(CurrentRefs()), store.state.isOpen)
    {
      isOpen := store.state.isOpen;
      if !store.state.isOpen && timeout.Some? {
        timers := timers - {timeout.value};
        timeout := None;
        token := token + 1;
      }
    }

    /** The unmount cleanup. */
    method OnUnmount()
      modifies this
      ensures CurrentRefs() == AfterUnmount(old(CurrentRefs()))
    {
      ClearTimer();
    }

    /** The effect on `state.pendingScan`. */
    method OnPendingScan() returns (extraction: Option<ExtractionJob>)
      modifies this, store
      ensures var a := Activate(old(CurrentWorld()));
        CurrentWorld() == a.world && extraction == a.extraction
    {
      var state := store.state;
      if state.pendingScan.None? {
        return None;
      }
      token := token + 1;
      var scanToken := token;
      var pending := state.pendingScan.value;
      store.Dispatch(SetPendingScan(None));
      store.Dispatch(SetReviewResult(None));
      store.Dispatch(SetUploadError(None));
      ClearTimer();
      if pending.source == Sample {
        var source := ReviewSource(pending.sampleId.GetOr("sample"), "Sample resume");
        SetTimer(ReviewJob(scanToken, ReviewRequest(source, None)));
        return None;
      }
      var file := if pending.file.Some? then pending.file else state.resumeFile;
      if file.None? {
        if !isOpen || token != scanToken {
          return None;
        }
        store.Dispatch(SetUploadError(Some(SELECT_RESUME_ERROR)));
        store.Dispatch(DialogEvent.SetState(Error));
        return None;
      }
      store.Dispatch(SetUploading(true));
      return Some(ExtractionJob(scanToken, file.value));
    }

    /** The extraction started for `scanToken` settles with `outcome`. */
    method OnExtractionSettled(scanToken: nat, outcome: Result<string, Option<string>>)
      modifies this, store
      ensures CurrentWorld() == AfterExtraction(old(CurrentWorld()), scanToken, outcome)
    {
      if outcome.Ok? {
        if isOpen && token == scanToken {
          var source := ReviewSource("upload", "Uploaded resume");
          SetTimer(ReviewJob(scanToken, ReviewRequest(source, Some(outcome.value))));
        }
      } else if isOpen && token == scanToken {
        store.Dispatch(SetUploadError(Some(outcome.error.GetOr(UPLOAD_FAILED))));
        store.Dispatch(DialogEvent.SetState(Error));
      }
      if isOpen && token == scanToken {
        store.Dispatch(SetUploading(false));
      }
    }

    /** The timer `handle` fires; the review it starts is returned. */
    method OnTimerFires(handle: nat) returns (job: Option<ReviewJob>)
      modifies this
      ensures CurrentRefs() == AfterTimerFires(old(CurrentRefs()), handle)
      ensures job == FiredJob(old(CurrentRefs()), handle)
    {
      job := if handle in timers then Some(timers[handle].job) else None;
      timers := timers - {handle};
    }

    /** The review started for `scanToken` settles with `outcome`. */
    method OnReviewSettled(scanToken: nat, outcome: Result<ReviewResult, Option<string>>)
      modifies store
      ensures store.state == AfterReview(old(CurrentWorld()), scanToken, outcome)
    {
      if !isOpen || token != scanToken {
        return;
      }
      match outcome
      case Ok(result) =>
        store.Dispatch(SetReviewResult(Some(result)));
        store.Dispatch(DialogEvent.SetState(Results));
        store.Dispatch(OpenSidebar(ResultsMode, None));
      case Err(message) =>
        store.Dispatch(SetUploadError(Some(message.GetOr(SCAN_FAILED))));
        store.Dispatch(DialogEvent.SetState(Error));
    }
  }

  // ------------------------------------------------------------- properties

  /** The refs start valid. */
  lemma InitialRefsValid(isOpen: bool)
    ensures ValidRefs(InitialRefs(isOpen)) && InitialRefs(isOpen).isOpen == isOpen
  {
  }

  /** Without a pending scan the effect does nothing. */
  lemma NoPendingScanNoEffect(world: World)
    requires world.dialog.pendingScan.None?
    ensures Activate(world) == Activation(world, None)
  {
  }

  /** Activation bumps the token, consumes the pending scan and drops the old review and
      the old error; only the missing-file failure writes an error of its own. */
  lemma ActivationConsumesScan(world: World)
    requires world.dialog.pendingScan.Some?
    ensures var a := Activate(world); var pending := world.dialog.pendingScan.value;
      a.world.refs.token == world.refs.token + 1
      && a.world.dialog.pendingScan.None?
      && a.world.dialog.reviewResult.None?
      && ((pending.source == Sample || pending.file.Some? || world.dialog.resumeFile.Some?) ==> a.world.dialog.uploadError.None?)
  {
  }

  /** Activation cancels the timer whose handle the ref holds. */
  lemma ActivationCancelsHeldTimer(world: World)
    requires world.dialog.pendingScan.Some? && ValidRefs(world.refs) && world.refs.timeout.Some?
    ensures world.refs.timeout.value !in Activate(world).world.refs.timers
  {
    assert world.refs.timeout.value != world.refs.nextHandle;
  }

  /** Running the effect again on what activation left behind does nothing: a descriptor
      is consumed at most once. */
  lemma ScanConsumedOnce(world: World)
    ensures var next := Activate(world).world;
      Activate(next) == Activation(next, None)
  {
  }

  /** A sample scan starts no extraction and schedules, after the fixed delay, the review
      of its sample (or of "sample" when it names none), with no text. */
  lemma SampleScanSchedulesReview(world: World)
    requires world.dialog.pendingScan.Some? && world.dialog.pendingScan.value.source == Sample
    ensures var a := Activate(world);
      var pending := world.dialog.pendingScan.value;
      var handle := world.refs.nextHandle;
      a.extraction.None?
      && a.world.refs.timeout == Some(handle)
      && handle in a.world.refs.timers
      && a.world.refs.timers[handle].delayMs == 2200
      && a.world.refs.timers[handle].job == ReviewJob(world.refs.token + 1,
           ReviewRequest(ReviewSource(pending.sampleId.GetOr("sample"), "Sample resume"), None))
      && a.world.dialog.id == world.dialog.id
  {
  }

  /** An upload scan with no file in the descriptor and none held reports the missing file
      at once, if the dialog is open, and starts nothing. */
  lemma UploadWithoutFileFails(world: World)
    requires world.dialog.pendingScan.Some? && world.dialog.pendingScan.value.source == Upload
    requires world.dialog.pendingScan.value.file.None? && world.dialog.resumeFile.None?
    ensures var a := Activate(world);
      a.extraction.None? && a.world.refs.timers.Keys <= world.refs.timers.Keys
      && (world.refs.isOpen ==> a.world.dialog.id == Error && a.world.dialog.uploadError == Some(SELECT_RESUME_ERROR))
      && (!world.refs.isOpen ==> a.world.dialog.id == world.dialog.id && a.world.dialog.uploadError.None?)
  {
  }

  /** An upload scan with a file marks the dialog as uploading and starts extracting the
      descriptor's file, or else the held one, under the new token. */
  lemma UploadStartsExtraction(world: World)
    requires world.dialog.pendingScan.Some? && world.dialog.pendingScan.value.source == Upload
    requires world.dialog.pendingScan.value.file.Some? || world.dialog.resumeFile.Some?
    ensures var a := Activate(world);
      var pending := world.dialog.pendingScan.value;
      var file := if pending.file.Some? then pending.file.value else world.dialog.resumeFile.value;
      a.extraction == Some(ExtractionJob(world.refs.token + 1, file))
      && a.world.dialog.isUploading
      && a.world.refs.timeout == world.refs.timeout
  {
  }

  /** A completion whose token is no longer current, or that arrives while the dialog is
      closed, writes nothing. */
  lemma StaleCompletionsIgnored(world: World, scanToken: nat,
      text: Result<string, Option<string>>, review: Result<ReviewResult, Option<string>>)
    requires !IsCurrent(world.refs, scanToken)
    ensures AfterExtraction(world, scanToken, text) == world
    ensures AfterReview(world, scanToken, review) == world.dialog
  {
  }

  /** A successful extraction schedules the review of its text and clears the uploading
      flag; a failed one shows the error's message, or the fixed one when there is none,
      on the error screen, and clears the flag too. */
  lemma ExtractionOutcomes(world: World, scanToken: nat, outcome: Result<string, Option<string>>)
    requires IsCurrent(world.refs, scanToken)
    ensures var next := AfterExtraction(world, scanToken, outcome);
      !next.dialog.isUploading
      && (outcome.Ok? ==>
            next.refs.timeout == Some(world.refs.nextHandle)
            && next.refs.timers[world.refs.nextHandle].job
               == ReviewJob(scanToken, ReviewRequest(ReviewSource("upload", "Uploaded resume"), Some(outcome.value)))
            && next.dialog.id == world.dialog.id)
      && (outcome.Err? ==>
            next.dialog.id == Error
            && next.dialog.uploadError == Some(if outcome.error.Some? then outcome.error.value else UPLOAD_FAILED)
            && next.refs == world.refs)
  {
  }

  /** A current review shows its result on the results screen with the results sidebar
      open; a current failure shows the message, or the fixed one, on the error screen. */
  lemma ReviewOutcomes(world: World, scanToken: nat, outcome: Result<ReviewResult, Option<string>>)
    requires IsCurrent(world.refs, scanToken)
    ensures var next := AfterReview(world, scanToken, outcome);
      (outcome.Ok? ==>
         next.reviewResult == Some(outcome.value) && next.id == Results
         && next.sidebar == Sidebar(true, Some(ResultsMode), None))
      && (outcome.Err? ==>
            next.id == Error && next.uploadError == Some(if outcome.error.Some? then outcome.error.value else SCAN_FAILED)
            && next.reviewResult == world.dialog.reviewResult)
  {
  }

  /** Closing the dialog while a handle is held cancels that timer and bumps the token, so
      every job captured before the close can no longer write. */
  lemma CloseInvalidatesScan(refs: Refs, scanToken: nat)
    requires ValidRefs(refs) && refs.timeout.Some? && scanToken <= refs.token
    ensures var next := AfterOpenChange(refs, false);
      next.token == refs.token + 1 && next.timeout.None? && refs.timeout.value !in next.timers
      && !next.isOpen && !IsCurrent(next, scanToken) && ValidRefs(next)
  {
  }

  /** A newer activation makes every earlier token stale. */
  lemma ActivationSupersedes(world: World, scanToken: nat, outcome: Result<ReviewResult, Option<string>>)
    requires world.dialog.pendingScan.Some? && scanToken <= world.refs.token
    ensures var next := Activate(world).world;
      !IsCurrent(next.refs, scanToken) && AfterReview(next, scanToken, outcome) == next.dialog
  {
  }

  /** Scheduling keeps the refs valid when the job's token is not from the future. */
  lemma ScheduleKeepsValid(refs: Refs, job: ReviewJob)
    requires ValidRefs(refs) && job.scanToken <= refs.token
    ensures ValidRefs(Schedule(refs, job)) && Schedule(refs, job).token == refs.token
  {
  }

  /** The open-state effect keeps the refs valid and never moves the token backwards. */
  lemma OpenChangeKeepsValid(refs: Refs, isOpen: bool)
    requires ValidRefs(refs)
    ensures ValidRefs(AfterOpenChange(refs, isOpen)) && AfterOpenChange(refs, isOpen).token >= refs.token
  {
  }

  /** Activation keeps the refs valid and never moves the token backwards. */
  lemma ActivateKeepsValid(world: World)
    requires ValidRefs(world.refs)
    ensures var r := Activate(world).world.refs; ValidRefs(r) && r.token >= world.refs.token
  {
    if world.dialog.pendingScan.Some? {
      var refs := ClearHeldTimer(world.refs.(token := world.refs.token + 1));
      assert ValidRefs(refs);
      if world.dialog.pendingScan.value.source == Sample {
        var pending := world.dialog.pendingScan.value;
        var source := ReviewSource(pending.sampleId.GetOr("sample"), "Sample resume");
        ScheduleKeepsValid(refs, ReviewJob(refs.token, ReviewRequest(source, None)));
      }
    }
  }

  /** A settled extraction keeps the refs valid and the token as it was. */
  lemma ExtractionKeepsValid(world: World, scanToken: nat, outcome: Result<string, Option<string>>)
    requires ValidRefs(world.refs)
    ensures var r := AfterExtraction(world, scanToken, outcome).refs; ValidRefs(r) && r.token == world.refs.token
  {
    if IsCurrent(world.refs, scanToken) && outcome.Ok? {
      var source := ReviewSource("upload", "Uploaded resume");
      ScheduleKeepsValid(world.refs, ReviewJob(scanToken, ReviewRequest(source, Some(outcome.value))));
    }
  }

  /** A firing timer and the unmount cleanup keep the refs valid and the token as it was. */
  lemma TimerAndUnmountKeepValid(refs: Refs, handle: nat)
    requires ValidRefs(refs)
    ensures ValidRefs(AfterTimerFires(refs, handle)) && AfterTimerFires(refs, handle).token == refs.token
    ensures ValidRefs(AfterUnmount(refs)) && AfterUnmount(refs).token == refs.token
  {
  }

  /** A fired timer's job carries a token no newer than the current one, and a timer fires
      at most once. */
  lemma TimerFiresOnce(refs: Refs, handle: nat)
    requires ValidRefs(refs)
    ensures FiredJob(refs, handle).Some? ==> FiredJob(refs, handle).value.scanToken <= refs.token
    ensures FiredJob(AfterTimerFires(refs, handle), handle).None?
  {
  }
}
