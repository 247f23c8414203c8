/** The dialog's effects on the robot scene (components/scene/hooks/useDialogSceneEffects.ts):
    the one-time greeting, and the phase changes and videos that follow the dialog from
    screen to screen. The two callbacks become commands, which the scene turns into
    `SET_PHASE` and `PLAY_VIDEO` events (components/scene/Scene.tsx). */
module SceneEffects {
  import opened Wrappers
  import opened DialogConfig
  import opened DialogState
  import opened DialogActions
  import Scene = SceneController

  /** A call of `onPhaseChange(phase)` or of `onPlayVideo(video, phase)`. */
  datatype SceneCommand =
    | ChangePhase(phase: Scene.ScenePhase)
    | PlayClip(video: Scene.SceneVideoId, clipPhase: Scene.ScenePhase)

  /** What `prevStateRef` holds after a run of the transition effect. */
  datatype PrevState = PrevState(id: DialogStateId, isOpen: bool)

  function Snapshot(state: Dialog): PrevState {
    PrevState(state.id, state.isOpen)
  }

  /** The idle phase with the idle clip playing. */
  const IDLE_COMMANDS := [ChangePhase(Scene.Idle), PlayClip(Scene.RobotIdle, Scene.Idle)]

  /** The greeting effect plays when the dialog is open on welcome and has not greeted yet. */
  predicate ShouldGreet(state: Dialog) {
    state.isOpen && state.id == Welcome && !state.hasPlayedGreeting
  }

  /** The calls the greeting effect makes. */
  function GreetingCommands(state: Dialog): seq<SceneCommand> {
    if ShouldGreet(state) then [ChangePhase(Scene.Greeting), PlayClip(Scene.Greet, Scene.Greeting)] else []
  }

  /** The calls made when the dialog arrives on screen `id`. */
  function EnterCommands(id: DialogStateId): seq<SceneCommand> {
    if id == Scanning then [ChangePhase(Scene.Scanning), PlayClip(Scene.ResumeScan, Scene.Scanning)]
    else if id == Results then [ChangePhase(Scene.Reviewing)]
    else if id == Error then [ChangePhase(Scene.Idle), PlayClip(Scene.ErrorVideo, Scene.Idle)]
    else []
  }

  /** The calls the transition effect makes, given the previous run's snapshot. A missing
      snapshot has no id and counts as open exactly when the dialog is. */
  function TransitionCommands(prev: Option<PrevState>, state: Dialog): seq<SceneCommand> {
    var prevId := if prev.Some? then Some(prev.value.id) else None;
    var wasOpen := if prev.Some? then prev.value.isOpen else state.isOpen;
    (if wasOpen && !state.isOpen then IDLE_COMMANDS else [])
    + (if state.isOpen && prevId != Some(state.id) then EnterCommands(state.id) else [])
    + (if state.isOpen && prevId == Some(Results) && state.id != Results && state.id != Scanning
       then IDLE_COMMANDS else [])
  }

  /** The scene event a command sends (`handlePhaseChange` and `handlePlayVideo`). */
  function SceneEventOf(command: SceneCommand): Scene.SceneEvent {
    match command
    case ChangePhase(phase) => Scene.SetPhase(phase)
    case PlayClip(video, phase) => Scene.PlayVideo(video, Some(phase))
  }

  /** The scene state after sending the commands' events in order. */
  function ApplyCommands(scene: Scene.SceneState, commands: seq<SceneCommand>): Scene.SceneState
    decreases |commands|
  {
    if commands == [] then scene
    else ApplyCommands(Scene.ReduceSceneState(scene, SceneEventOf(commands[0])), commands[1..])
  }

  /** `useDialogSceneEffects`: the snapshot cell and the dialog store it dispatches to. */
  class SceneEffectsHook {
    var prev: Option<PrevState>
    const store: DialogStore

    constructor(store: DialogStore)
      ensures prev == None && this.store == store
    {
      prev := None;
      this.store := store;
    }

    /** The greeting effect: greet, then record that the greeting has played. */
    method GreetingEffect() returns (commands: seq<SceneCommand>)
      modifies store
      ensures commands == GreetingCommands(old(store.state))
      ensures store.state == if ShouldGreet(old(store.state))
        then DialogReducer(old(store.state), SetPlayedGreeting(true))
        else old(store.state)
    {
      var state := store.state;
      if !state.isOpen || state.id != Welcome || state.hasPlayedGreeting {
        return [];
      }
      commands := [ChangePhase(Scene.Greeting)];
      commands := commands + [PlayClip(Scene.Greet, Scene.Greeting)];
      store.Dispatch(SetPlayedGreeting(true));
    }

    /** The transition effect for the rendered `state`; it leaves the new snapshot behind. */
    method TransitionEffect(state: Dialog) returns (commands: seq<SceneCommand>)
      modifies this
      ensures commands == TransitionCommands(old(prev), state)
      ensures prev == Some(Snapshot(state))
    {
      var prevId := if prev.Some? then Some(prev.value.id) else None;
      var wasOpen := if prev.Some? then prev.value.isOpen else state.isOpen;
      commands := [];
      if wasOpen && !state.isOpen {
        commands := commands + [ChangePhase(Scene.Idle), PlayClip(Scene.RobotIdle, Scene.Idle)];
      }
      if state.isOpen && prevId != Some(state.id) {
        if state.id == Scanning {
          commands := commands + [ChangePhase(Scene.Scanning), PlayClip(Scene.ResumeScan, Scene.Scanning)];
        } else if state.id == Results {
          commands := commands + [ChangePhase(Scene.Reviewing)];
        } else if state.id == Error {
          commands := commands + [ChangePhase(Scene.Idle), PlayClip(Scene.ErrorVideo, Scene.Idle)];
        }
      }
      if state.isOpen && prevId == Some(Results) && state.id != Results && state.id != Scanning {
        commands := commands + [ChangePhase(Scene.Idle), PlayClip(Scene.RobotIdle, Scene.Idle)];
      }
      prev := Some(Snapshot(state));
    }
  }

  // ------------------------------------------------------------- properties

  /** Sending `a + b` is sending `a` and then `b`. */
  lemma {:induction false} ApplyAppend(scene: Scene.SceneState, a: seq<SceneCommand>, b: seq<SceneCommand>)
    ensures ApplyCommands(scene, a + b) == ApplyCommands(ApplyCommands(scene, a), b)
    decreases |a|
  {
    if a == [] {
      assert a + b == b;
    } else {
      assert (a + b)[1..] == a[1..] + b;
      ApplyAppend(Scene.ReduceSceneState(scene, SceneEventOf(a[0])), a[1..], b);
    }
  }

  /** Two commands are two scene events. */
  lemma ApplyPair(scene: Scene.SceneState, first: SceneCommand, second: SceneCommand)
    ensures ApplyCommands(scene, [first, second])
      == Scene.ReduceSceneState(Scene.ReduceSceneState(scene, SceneEventOf(first)), SceneEventOf(second))
  {
    var afterFirst := Scene.ReduceSceneState(scene, SceneEventOf(first));
    assert [first, second][1..] == [second];
    assert ApplyCommands(scene, [first, second]) == ApplyCommands(afterFirst, [second]);
    assert [second][1..] == [];
    assert ApplyCommands(afterFirst, [second])
      == ApplyCommands(Scene.ReduceSceneState(afterFirst, SceneEventOf(second)), []);
  }

  /** The greeting plays exactly on an open welcome screen that has not greeted, setting the
      greeting phase and playing the greeting video in it. */
  lemma GreetingConditions(state: Dialog)
    ensures GreetingCommands(state) != [] <==>
      state.isOpen && state.id == Welcome && !state.hasPlayedGreeting
    ensures GreetingCommands(state) != [] ==>
      GreetingCommands(state) == [ChangePhase(Scene.Greeting), PlayClip(Scene.Greet, Scene.Greeting)]
  {
  }

  /** The dialog's first state greets. */
  lemma FirstRenderGreets()
    ensures GreetingCommands(INITIAL_DIALOG_STATE) == [ChangePhase(Scene.Greeting), PlayClip(Scene.Greet, Scene.Greeting)]
  {
  }

  /** The greeting plays once: the event it dispatches switches it off, and no later event
      but `SET_PLAYED_GREETING` with `false` switches it back on. */
  lemma {:induction false} GreetingPlaysOnce(state: Dialog, events: seq<DialogEvent>)
    requires state.hasPlayedGreeting
    requires forall i :: 0 <= i < |events| ==> events[i] != SetPlayedGreeting(false)
    ensures GreetingCommands(Run(state, events)) == []
    decreases |events|
  {
    if events != [] {
      SetEventsWriteTheirValue(state, events[0]);
      GreetingPlaysOnce(DialogReducer(state, events[0]), events[1..]);
    }
  }

  /** After greeting the scene is in the greeting phase with the greeting video showing. */
  lemma GreetingDrivesScene(scene: Scene.SceneState, state: Dialog)
    requires ShouldGreet(state)
    ensures var s := ApplyCommands(scene, GreetingCommands(state));
      s.phase == Scene.Greeting && s.activeVideo == Some(Scene.Greet) && s.isVideoVisible
      && s.lastVideo == Some(Scene.Greet)
  {
    ApplyPair(scene, ChangePhase(Scene.Greeting), PlayClip(Scene.Greet, Scene.Greeting));
  }

  /** Running the transition effect again on the state it last saw does nothing, so running
      it on every render is the same as running it when the id or openness changes. */
  lemma RepeatedTransitionIsQuiet(state: Dialog)
    ensures TransitionCommands(Some(Snapshot(state)), state) == []
  {
  }

  /** The first run has no previous id: an open dialog enters its screen, and nothing
      closes and no results screen is left. */
  lemma FirstTransition(state: Dialog)
    ensures state.isOpen ==> TransitionCommands(None, state) == EnterCommands(state.id)
    ensures !state.isOpen ==> TransitionCommands(None, state) == []
    ensures state.isOpen && state.id == Welcome ==> TransitionCommands(None, state) == []
  {
  }

  /** Closing the dialog returns the scene to idle, and nothing else. */
  lemma ClosingIdles(prev: PrevState, state: Dialog)
    requires prev.isOpen && !state.isOpen
    ensures TransitionCommands(Some(prev), state) == IDLE_COMMANDS
  {
  }

  /** A closed dialog makes no calls unless it was open before. */
  lemma ClosedStaysQuiet(prev: Option<PrevState>, state: Dialog)
    requires !state.isOpen && (prev.None? || !prev.value.isOpen)
    ensures TransitionCommands(prev, state) == []
  {
  }

  /** Moving to scanning, results or error from another open screen (other than results
      for error) makes exactly that screen's calls. */
  lemma EnteringScreens(prev: PrevState, state: Dialog)
    requires prev.isOpen && state.isOpen && prev.id != state.id
    ensures state.id == Scanning ==>
      TransitionCommands(Some(prev), state) == [ChangePhase(Scene.Scanning), PlayClip(Scene.ResumeScan, Scene.Scanning)]
    ensures state.id == Results ==>
      TransitionCommands(Some(prev), state) == [ChangePhase(Scene.Reviewing)]
    ensures state.id == Error && prev.id != Results ==>
      TransitionCommands(Some(prev), state) == [ChangePhase(Scene.Idle), PlayClip(Scene.ErrorVideo, Scene.Idle)]
  {
  }

  /** Leaving results for a screen other than scanning or error returns the scene to idle;
      moving between two other screens makes no call. */
  lemma LeavingResults(prev: PrevState, state: Dialog)
    requires state.isOpen && prev.isOpen && state.id !in {Results, Scanning, Error}
    ensures prev.id == Results ==> TransitionCommands(Some(prev), state) == IDLE_COMMANDS
    ensures prev.id != Results ==> TransitionCommands(Some(prev), state) == []
  {
  }

  /** Going from results straight to error plays the error video and then the idle clip
      over it, so the scene ends idle on the idle clip. */
  lemma ResultsToErrorEndsIdle(scene: Scene.SceneState, prev: PrevState, state: Dialog)
    requires prev.isOpen && prev.id == Results && state.isOpen && state.id == Error
    ensures TransitionCommands(Some(prev), state)
      == [ChangePhase(Scene.Idle), PlayClip(Scene.ErrorVideo, Scene.Idle)] + IDLE_COMMANDS
    ensures var s := ApplyCommands(scene, TransitionCommands(Some(prev), state));
      s.phase == Scene.Idle && s.activeVideo == Some(Scene.RobotIdle)
  {
    var errorCommands := [ChangePhase(Scene.Idle), PlayClip(Scene.ErrorVideo, Scene.Idle)];
    ApplyAppend(scene, errorCommands, IDLE_COMMANDS);
    ApplyPair(scene, errorCommands[0], errorCommands[1]);
    ApplyPair(ApplyCommands(scene, errorCommands), IDLE_COMMANDS[0], IDLE_COMMANDS[1]);
  }

  /** Entering scanning puts the scene in the scanning phase with the scan video showing,
      and once that video ends the scene is reviewing. */
  lemma ScanDrivesScene(scene: Scene.SceneState, prev: Option<PrevState>, state: Dialog)
    requires state.isOpen && state.id == Scanning && (prev.None? || prev.value.id != Scanning)
    ensures var s := ApplyCommands(scene, TransitionCommands(prev, state));
      s.phase == Scene.Scanning && s.activeVideo == Some(Scene.ResumeScan) && s.isVideoVisible
      && Scene.ReduceSceneState(s, Scene.VideoEnded).phase == Scene.Reviewing
  {
    assert TransitionCommands(prev, state) == [ChangePhase(Scene.Scanning), PlayClip(Scene.ResumeScan, Scene.Scanning)];
    ApplyPair(scene, ChangePhase(Scene.Scanning), PlayClip(Scene.ResumeScan, Scene.Scanning));
  }

  /** The dialog never closes through its reducer, so from an open snapshot the closing
      calls never happen. */
  lemma {:induction false} NoClosingFromOpenDialog(state: Dialog, events: seq<DialogEvent>)
    requires state.isOpen
    ensures var next := Run(state, events);
      TransitionCommands(Some(Snapshot(state)), next)
      == (if state.id != next.id then EnterCommands(next.id) else [])
         + (if state.id == Results && next.id != Results && next.id != Scanning then IDLE_COMMANDS else [])
  {
    ReachableIsOpen(state, events);
  }
}
