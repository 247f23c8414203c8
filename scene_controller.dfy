/** The robot scene's controller (lib/sceneController.ts): the scene phase and video
    reducer, the idle-clip weights and the weighted random pick among idle clips, the
    random idle delay, and the controller object that holds the current scene state and
    notifies its subscribers. Random draws are passed in as a `real` in [0, 1), and the
    weights of clips are the exact values of their doubles. */
module SceneController {
  import opened Wrappers

  datatype ScenePhase = Boot | Greeting | Idle | Scanning | Reviewing | Complete | Error

  datatype SceneVideoId = Greet | ResumeScan | RobotIdle | ErrorVideo

  /** `{ id, weight }` */
  datatype IdleClip = IdleClip(id: SceneVideoId, weight: real)

  const ALL_PHASES: set<ScenePhase> := {Boot, Greeting, Idle, Scanning, Reviewing, Complete, Error}

  /** `Record<ScenePhase, SceneIdleClip[]>` is a map that holds every phase;
      `Partial<...>` is any map. */
  type IdleWeights = map<ScenePhase, seq<IdleClip>>

  predicate HasAllPhases(weights: IdleWeights) {
    forall p: ScenePhase :: p in weights
  }

  /** The entry of `DEFAULT_IDLE_WEIGHTS` for `phase`. */
  function DefaultClips(phase: ScenePhase): seq<IdleClip> {
    match phase
    case Boot => []
    case Greeting => []
    case Idle => [IdleClip(RobotIdle, 1.0)]
    case Scanning => [IdleClip(RobotIdle, 1.0)]
    case Reviewing => [IdleClip(RobotIdle, 1.0)]
    case Complete => [IdleClip(RobotIdle, 1.0)]
    case Error => []
  }

  /** `getIdleWeights(overrides)` */
  function GetIdleWeights(overrides: IdleWeights): (r: IdleWeights)
    ensures HasAllPhases(r)
    ensures forall p: ScenePhase :: r[p] == if p in overrides then overrides[p] else DefaultClips(p)
  {
    EveryPhaseListed();
    map p | p in ALL_PHASES :: if p in overrides then overrides[p] else DefaultClips(p)
  }

  lemma EveryPhaseListed()
    ensures forall p: ScenePhase :: p in ALL_PHASES
  {
    forall p: ScenePhase
      ensures p in ALL_PHASES
    {
      match p
      case Boot =>
      case Greeting =>
      case Idle =>
      case Scanning =>
      case Reviewing =>
      case Complete =>
      case Error =>
    }
  }

  // ------------------------------------------------------------- idle schedule

  /** `IdleScheduleConfig` with whole-millisecond bounds. */
  datatype IdleScheduleConfig = IdleScheduleConfig(minDelayMs: int, maxDelayMs: int, avoidRepeat: bool)

  const DEFAULT_IDLE_SCHEDULE := IdleScheduleConfig(8000, 16000, true)

  /** `getRandomIdleDelayMs(config)`, with `Math.random()` as `draw`. */
  function GetRandomIdleDelayMs(config: IdleScheduleConfig, draw: real): int
    requires 0.0 <= draw < 1.0
  {
    var minDelayMs := if config.minDelayMs < 0 then 0 else config.minDelayMs;
    var maxDelayMs := if config.maxDelayMs < minDelayMs then minDelayMs else config.maxDelayMs;
    (minDelayMs as real + draw * (maxDelayMs - minDelayMs) as real).Floor
  }

  // ------------------------------------------------------------- picking a clip

  /** `clips.filter(clip => clip.id !== lastVideo)` */
  function WithoutVideo(clips: seq<IdleClip>, video: SceneVideoId): (r: seq<IdleClip>)
    ensures |r| <= |clips|
    ensures forall i :: 0 <= i < |r| ==> r[i].id != video && r[i] in clips
    ensures forall i :: 0 <= i < |clips| && clips[i].id != video ==> clips[i] in r
    decreases |clips|
  {
    if clips == [] then []
    else
      var rest := WithoutVideo(clips[1..], video);
      assert forall i :: 1 <= i < |clips| ==> clips[i] == clips[1..][i - 1];
      if clips[0].id == video then rest else [clips[0]] + rest
  }

  /** The clips the pick draws from: without the last video when repeats are avoided and
      something else remains, else all of them. */
  function SelectionPool(clips: seq<IdleClip>, lastVideo: Option<SceneVideoId>, avoidRepeat: bool): seq<IdleClip> {
    var available := if avoidRepeat && lastVideo.Some? then WithoutVideo(clips, lastVideo.value) else clips;
    if |available| > 0 then available else clips
  }

  /** The sum of the weights of `clips`, added from the front. */
  function TotalWeight(clips: seq<IdleClip>): real
    decreases |clips|
  {
    if clips == [] then 0.0 else clips[0].weight + TotalWeight(clips[1..])
  }

  /** The id of the first clip whose running total, starting from `cumulative`, reaches
      `target`; the last clip's id when none does. */
  function FirstReaching(clips: seq<IdleClip>, target: real, cumulative: real): Option<SceneVideoId>
    decreases |clips|
  {
    if clips == [] then None
    else if target <= cumulative + clips[0].weight then Some(clips[0].id)
    else if |clips| == 1 then Some(clips[0].id)
    else FirstReaching(clips[1..], target, cumulative + clips[0].weight)
  }

  /** `pickIdleClip(clips, lastVideo, avoidRepeat)` with `Math.random()` as `draw`. */
  function PickIdleClipSpec(clips: seq<IdleClip>, lastVideo: Option<SceneVideoId>, avoidRepeat: bool, draw: real): Option<SceneVideoId> {
    if |clips| == 0 then None else PickFromPoolSpec(SelectionPool(clips, lastVideo, avoidRepeat), draw)
  }

  /** The draw scaled to the pool's total weight, then the first clip reaching it; nothing
      when the total is not positive. */
  function PickFromPoolSpec(pool: seq<IdleClip>, draw: real): Option<SceneVideoId> {
    if TotalWeight(pool) <= 0.0 then None else FirstReaching(pool, Scale(draw, TotalWeight(pool)), 0.0)
  }

  /** `Math.random() * totalWeight` */
  function Scale(draw: real, total: real): real {
    draw * total
  }

  /** The running total after the first `n` clips. */
  function PrefixWeight(clips: seq<IdleClip>, n: nat): real
    requires n <= |clips|
  {
    TotalWeight(clips[..n])
  }

  lemma {:induction false} PrefixWeightStep(clips: seq<IdleClip>, n: nat)
    requires n < |clips|
    ensures PrefixWeight(clips, n + 1) == PrefixWeight(clips, n) + clips[n].weight
    decreases n
  {
    if n == 0 {
      assert clips[..1][1..] == [];
    } else {
      assert clips[..n + 1][1..] == clips[1..][..n];
      assert clips[..n][1..] == clips[1..][..n - 1];
      PrefixWeightStep(clips[1..], n - 1);
    }
  }

  lemma {:induction false} FirstReachingFrom(clips: seq<IdleClip>, target: real, n: nat)
    requires n < |clips|
    requires forall j :: 0 < j <= n ==> target > PrefixWeight(clips, j)
    ensures FirstReaching(clips, target, 0.0) == FirstReaching(clips[n..], target, PrefixWeight(clips, n))
    decreases n
  {
    if n > 0 {
      FirstReachingFrom(clips, target, n - 1);
      PrefixWeightStep(clips, n - 1);
      assert clips[n - 1..][1..] == clips[n..];
    } else {
      assert clips[..0] == [];
    }
  }

  /** `pickIdleClip`: choose the pool, then run the cumulative loop over it. */
  method PickIdleClip(clips: seq<IdleClip>, lastVideo: Option<SceneVideoId>, avoidRepeat: bool, draw: real)
    returns (picked: Option<SceneVideoId>)
    ensures picked == PickIdleClipSpec(clips, lastVideo, avoidRepeat, draw)
  {
    if |clips| == 0 {
      return None;
    }
    var available := if avoidRepeat && lastVideo.Some? then WithoutVideo(clips, lastVideo.value) else clips;
    var pool := if |available| > 0 then available else clips;
    var total := TotalWeight(pool);
    if total <= 0.0 {
      return None;
    }
    picked := PickFromPool(pool, Scale(draw, total));
  }

  /** The loop of `pickIdleClip`: add up the weights until the total reaches `target`,
      falling back to the last clip. */
  method PickFromPool(pool: seq<IdleClip>, target: real) returns (picked: Option<SceneVideoId>)
    requires |pool| > 0
    ensures picked == FirstReaching(pool, target, 0.0)
  {
    var cumulative := 0.0;
    var i := 0;
    while i < |pool|
      invariant 0 <= i <= |pool|
      invariant cumulative == PrefixWeight(pool, i)
      invariant forall j :: 0 < j <= i ==> target > PrefixWeight(pool, j)
    {
      PrefixWeightStep(pool, i);
      cumulative := cumulative + pool[i].weight;
      if target <= cumulative {
        FirstReachingFrom(pool, target, i);
        assert pool[i..][0] == pool[i];
        return Some(pool[i].id);
      }
      i := i + 1;
    }
    FirstReachingFrom(pool, target, |pool| - 1);
    assert pool[|pool| - 1..] == [pool[|pool| - 1]];
    return Some(pool[|pool| - 1].id);
  }

  // ------------------------------------------------------------- scene state

  datatype SceneState = SceneState(
    phase: ScenePhase,
    activeVideo: Option<SceneVideoId>,
    isVideoVisible: bool,
    lastVideo: Option<SceneVideoId>,
    idleWeights: IdleWeights)

  datatype SceneEvent =
    | Init
    | PlayVideo(id: SceneVideoId, nextPhase: Option<ScenePhase>)
    | VideoEnded
    | SetPhase(phase: ScenePhase)
    | UpdateIdleWeights(weightsPhase: ScenePhase, clips: seq<IdleClip>)

  /** `getPhaseAfterVideo` */
  function GetPhaseAfterVideo(phase: ScenePhase): ScenePhase {
    if phase == Greeting then Idle
    else if phase == Scanning then Reviewing
    else phase
  }

  /** `reduceSceneState` */
  function ReduceSceneState(state: SceneState, event: SceneEvent): SceneState {
    match event
    case Init => state.(phase := Greeting, activeVideo := Some(Greet), isVideoVisible := true, lastVideo := Some(Greet))
    case PlayVideo(id, nextPhase) =>
      state.(phase := nextPhase.GetOr(state.phase), activeVideo := Some(id), isVideoVisible := true, lastVideo := Some(id))
    case VideoEnded =>
      state.(
        phase := GetPhaseAfterVideo(state.phase),
        activeVideo := None,
        isVideoVisible := false,
        lastVideo := if state.activeVideo.Some? then state.activeVideo else state.lastVideo)
    case SetPhase(phase) => state.(phase := phase)
    case UpdateIdleWeights(phase, clips) => state.(idleWeights := state.idleWeights[phase := clips])
  }

  /** `SceneControllerOptions` */
  datatype SceneControllerOptions = SceneControllerOptions(initialPhase: Option<ScenePhase>, idleWeights: IdleWeights)

  /** The controller's first state. */
  function InitialSceneState(options: SceneControllerOptions): SceneState {
    SceneState(options.initialPhase.GetOr(Boot), None, false, None, GetIdleWeights(options.idleWeights))
  }

  /** The state the controller keeps: a video is visible exactly while one is active, and
      every phase has its clip list. */
  predicate ValidScene(state: SceneState) {
    (state.isVideoVisible <==> state.activeVideo.Some?) && HasAllPhases(state.idleWeights)
  }

  // ------------------------------------------------------------- listeners

  /** `listeners.add(listener)`: a set in insertion order, so adding a present one does nothing. */
  function AddListener(listeners: seq<nat>, listener: nat): seq<nat> {
    if listener in listeners then listeners else listeners + [listener]
  }

  /** `listeners.delete(listener)` */
  function RemoveListener(listeners: seq<nat>, listener: nat): (r: seq<nat>)
    ensures forall x :: x in r <==> x in listeners && x != listener
    ensures |r| <= |listeners|
    decreases |listeners|
  {
    if listeners == [] then []
    else
      var rest := RemoveListener(listeners[1..], listener);
      if listeners[0] == listener then rest else [listeners[0]] + rest
  }

  predicate NoDuplicates(listeners: seq<nat>) {
    forall i, j :: 0 <= i < j < |listeners| ==> listeners[i] != listeners[j]
  }

  /** One call of a listener with the state it was given. */
  datatype Notification = Notification(listener: nat, state: SceneState)

  /** Every listener, in subscription order, called with `state`. */
  function Notifications(listeners: seq<nat>, state: SceneState): (r: seq<Notification>)
    ensures |r| == |listeners|
    ensures forall i :: 0 <= i < |r| ==> r[i] == Notification(listeners[i], state)
  {
    seq(|listeners|, i requires 0 <= i < |listeners| => Notification(listeners[i], state))
  }

  /** `createSceneController(options)`; listeners are named by number. */
  class Controller {
    var state: SceneState
    var listeners: seq<nat>

    constructor(options: SceneControllerOptions)
      ensures state == InitialSceneState(options) && listeners == []
    {
      state := InitialSceneState(options);
      listeners := [];
    }

    /** `getState` */
    method GetState() returns (current: SceneState)
      ensures current == state
    {
      current := state;
    }

    /** `send(event)`: the reduced state, and the calls made to the listeners with it. */
    method Send(event: SceneEvent) returns (current: SceneState, calls: seq<Notification>)
      modifies this
      ensures state == ReduceSceneState(old(state), event) && listeners == old(listeners)
      ensures current == state && calls == Notifications(listeners, state)
    {
      state := ReduceSceneState(state, event);
      calls := [];
      var i := 0;
      while i < |listeners|
        invariant 0 <= i <= |listeners|
        invariant calls == Notifications(listeners[..i], state)
      {
        calls := calls + [Notification(listeners[i], state)];
        i := i + 1;
      }
      assert listeners[..i] == listeners;
      current := state;
    }

    /** `subscribe(listener)` */
    method Subscribe(listener: nat)
      modifies this
      ensures listeners == AddListener(old(listeners), listener) && state == old(state)
    {
      if listener !in listeners {
        listeners := listeners + [listener];
      }
    }

    /** The function `subscribe` returns. */
    method Unsubscribe(listener: nat)
      modifies this
      ensures listeners == RemoveListener(old(listeners), listener) && state == old(state)
    {
      listeners := RemoveListener(listeners, listener);
    }
  }

  // ------------------------------------------------------------- properties

  /** Overridden phases take their override and the rest their defaults: the idle phases
      play the idle clip at weight 1 and boot, greeting and error have none. */
  lemma IdleWeightsDefaults(overrides: IdleWeights)
    ensures var w := GetIdleWeights(overrides);
      (Idle !in overrides ==> w[Idle] == [IdleClip(RobotIdle, 1.0)])
      && (Boot !in overrides ==> w[Boot] == [])
      && (Error !in overrides ==> w[Error] == [])
      && (Greeting in overrides ==> w[Greeting] == overrides[Greeting])
  {
  }

  /** The delay lies between the two bounds: at least the non-negative minimum, and below
      the maximum when the bounds differ; equal or crossed bounds give the minimum. */
  lemma IdleDelayInRange(config: IdleScheduleConfig, draw: real)
    requires 0.0 <= draw < 1.0
    ensures var minDelayMs := if config.minDelayMs < 0 then 0 else config.minDelayMs;
      var d := GetRandomIdleDelayMs(config, draw);
      minDelayMs <= d
      && (config.maxDelayMs > minDelayMs ==> d < config.maxDelayMs)
      && (config.maxDelayMs <= minDelayMs ==> d == minDelayMs)
  {
    var minDelayMs := if config.minDelayMs < 0 then 0 else config.minDelayMs;
    var maxDelayMs := if config.maxDelayMs < minDelayMs then minDelayMs else config.maxDelayMs;
    DelayFloor(minDelayMs, maxDelayMs, draw);
  }

  /** The floor of the minimum plus the draw's share of the span stays within the bounds. */
  lemma DelayFloor(minDelayMs: int, maxDelayMs: int, draw: real)
    requires minDelayMs <= maxDelayMs && 0.0 <= draw < 1.0
    ensures var d := (minDelayMs as real + draw * (maxDelayMs - minDelayMs) as real).Floor;
      minDelayMs <= d
      && (maxDelayMs > minDelayMs ==> d < maxDelayMs)
      && (maxDelayMs == minDelayMs ==> d == minDelayMs)
  {
    var span := (maxDelayMs - minDelayMs) as real;
    ScaledDrawBounds(draw, span);
    var x := minDelayMs as real + draw * span;
    if maxDelayMs > minDelayMs {
      assert x < maxDelayMs as real;
      FloorWithin(minDelayMs, maxDelayMs, x);
    } else {
      assert x == minDelayMs as real;
      FloorWithin(minDelayMs, minDelayMs + 1, x);
    }
  }

  lemma FloorWithin(lo: int, hi: int, x: real)
    requires lo as real <= x < hi as real
    ensures lo <= x.Floor < hi
  {
  }

  lemma ScaledDrawBounds(draw: real, span: real)
    requires 0.0 <= draw < 1.0 && 0.0 <= span
    ensures 0.0 <= draw * span
    ensures span > 0.0 ==> draw * span < span
    ensures span == 0.0 ==> draw * span == 0.0
  {
  }

  /** The default schedule waits between 8 and 16 seconds. */
  lemma DefaultIdleDelay(draw: real)
    requires 0.0 <= draw < 1.0
    ensures 8000 <= GetRandomIdleDelayMs(DEFAULT_IDLE_SCHEDULE, draw) < 16000
  {
    IdleDelayInRange(DEFAULT_IDLE_SCHEDULE, draw);
  }

  /** No clips, or a pool with no positive total, picks nothing. */
  lemma PickNothing(clips: seq<IdleClip>, lastVideo: Option<SceneVideoId>, avoidRepeat: bool, draw: real)
    ensures |clips| == 0 ==> PickIdleClipSpec(clips, lastVideo, avoidRepeat, draw).None?
    ensures TotalWeight(SelectionPool(clips, lastVideo, avoidRepeat)) <= 0.0 ==>
      PickIdleClipSpec(clips, lastVideo, avoidRepeat, draw).None?
  {
  }

  /** The pool leaves out the last video when repeats are avoided and another clip
      remains, and is the whole list otherwise. */
  lemma PoolAvoidsRepeat(clips: seq<IdleClip>, lastVideo: Option<SceneVideoId>, avoidRepeat: bool)
    ensures var pool := SelectionPool(clips, lastVideo, avoidRepeat);
      (avoidRepeat && lastVideo.Some? && (exists i :: 0 <= i < |clips| && clips[i].id != lastVideo.value) ==>
         forall i :: 0 <= i < |pool| ==> pool[i].id != lastVideo.value)
      && (!avoidRepeat || lastVideo.None? ==> pool == clips)
      && (forall i :: 0 <= i < |pool| ==> pool[i] in clips)
  {
    if avoidRepeat && lastVideo.Some? && (exists i :: 0 <= i < |clips| && clips[i].id != lastVideo.value) {
      var i :| 0 <= i < |clips| && clips[i].id != lastVideo.value;
      assert clips[i] in WithoutVideo(clips, lastVideo.value);
    }
  }

  /** A sole clip equal to the last video is still picked when its weight is positive. */
  lemma SoleClipRepeats(clip: IdleClip, draw: real)
    requires clip.weight > 0.0 && 0.0 <= draw < 1.0
    ensures PickIdleClipSpec([clip], Some(clip.id), true, draw) == Some(clip.id)
  {
    assert WithoutVideo([clip], clip.id) == [];
    assert TotalWeight([clip]) == clip.weight;
  }

  lemma {:induction false} FirstReachingInPool(clips: seq<IdleClip>, target: real, cumulative: real)
    ensures var r := FirstReaching(clips, target, cumulative);
      (clips == [] <==> r.None?) && (r.Some? ==> exists i :: 0 <= i < |clips| && clips[i].id == r.value)
    decreases |clips|
  {
    if |clips| > 1 && target > cumulative + clips[0].weight {
      FirstReachingInPool(clips[1..], target, cumulative + clips[0].weight);
      var r := FirstReaching(clips[1..], target, cumulative + clips[0].weight);
      var i :| 0 <= i < |clips[1..]| && clips[1..][i].id == r.value;
      assert clips[i + 1] == clips[1..][i];
    }
  }

  /** Whatever is picked is a clip of the pool, and so one of the given clips. */
  lemma PickIsFromPool(clips: seq<IdleClip>, lastVideo: Option<SceneVideoId>, avoidRepeat: bool, draw: real)
    ensures var r := PickIdleClipSpec(clips, lastVideo, avoidRepeat, draw);
      var pool := SelectionPool(clips, lastVideo, avoidRepeat);
      r.Some? ==>
        (exists i :: 0 <= i < |pool| && pool[i].id == r.value) && (exists i :: 0 <= i < |clips| && clips[i].id == r.value)
  {
    var pool := SelectionPool(clips, lastVideo, avoidRepeat);
    if |clips| > 0 && TotalWeight(pool) > 0.0 {
      assert |pool| > 0;
      FirstReachingInPool(pool, Scale(draw, TotalWeight(pool)), 0.0);
      PoolAvoidsRepeat(clips, lastVideo, avoidRepeat);
      var r := PickIdleClipSpec(clips, lastVideo, avoidRepeat, draw);
      var i :| 0 <= i < |pool| && pool[i].id == r.value;
      assert pool[i] in clips;
      var k :| 0 <= k < |clips| && clips[k] == pool[i];
    }
  }

  /** The clip picked for `target` is the first one whose running total reaches it. */
  lemma FirstReachingIsLeast(pool: seq<IdleClip>, target: real, k: nat)
    requires 0 < k <= |pool|
    requires target <= PrefixWeight(pool, k)
    requires forall j :: 0 < j < k ==> target > PrefixWeight(pool, j)
    ensures FirstReaching(pool, target, 0.0) == Some(pool[k - 1].id)
  {
    FirstReachingFrom(pool, target, k - 1);
    PrefixWeightStep(pool, k - 1);
    assert pool[k - 1..][0] == pool[k - 1];
  }

  /** A target the first `n` clips reach is first reached by some prefix of them. */
  lemma {:induction false} ReachingPrefixExists(pool: seq<IdleClip>, target: real, n: nat)
    requires 0 < n <= |pool| && target <= PrefixWeight(pool, n)
    ensures exists k :: 0 < k <= n && target <= PrefixWeight(pool, k)
                        && (forall j :: 0 < j < k ==> target > PrefixWeight(pool, j))
    decreases n
  {
    if exists j :: 0 < j < n && target <= PrefixWeight(pool, j) {
      var j :| 0 < j < n && target <= PrefixWeight(pool, j);
      ReachingPrefixExists(pool, target, j);
    } else {
      assert forall j :: 0 < j < n ==> target > PrefixWeight(pool, j);
    }
  }

  lemma ScaledDrawReachable(pool: seq<IdleClip>, draw: real)
    requires 0.0 <= draw < 1.0 && TotalWeight(pool) > 0.0
    ensures Scale(draw, TotalWeight(pool)) <= PrefixWeight(pool, |pool|)
  {
    var total := TotalWeight(pool);
    ScaleBelowTotal(draw, total);
    assert pool[..|pool|] == pool;
    assert PrefixWeight(pool, |pool|) == total;
  }

  lemma ScaleBelowTotal(draw: real, total: real)
    requires 0.0 <= draw < 1.0 && total > 0.0
    ensures Scale(draw, total) < total
  {
    ScaledDrawBounds(draw, total);
  }

  /** Weighted choice: a draw in [0, 1) over a pool with a positive total picks the clip
      of the first running total that reaches the scaled draw, so the fall-back to the
      last clip never decides the pick. */
  lemma PickIsWeightedChoice(clips: seq<IdleClip>, lastVideo: Option<SceneVideoId>, avoidRepeat: bool, draw: real)
    requires 0.0 <= draw < 1.0
    requires |clips| > 0 && TotalWeight(SelectionPool(clips, lastVideo, avoidRepeat)) > 0.0
    ensures var pool := SelectionPool(clips, lastVideo, avoidRepeat);
      var target := Scale(draw, TotalWeight(pool));
      exists k :: 0 < k <= |pool| && target <= PrefixWeight(pool, k)
        && (forall j :: 0 < j < k ==> target > PrefixWeight(pool, j))
        && PickIdleClipSpec(clips, lastVideo, avoidRepeat, draw) == Some(pool[k - 1].id)
  {
    var pool := SelectionPool(clips, lastVideo, avoidRepeat);
    var total := TotalWeight(pool);
    var target := Scale(draw, total);
    assert |pool| > 0;
    ScaledDrawReachable(pool, draw);
    ReachingPrefixExists(pool, target, |pool|);
    var k :| 0 < k <= |pool| && target <= PrefixWeight(pool, k)
      && forall j :: 0 < j < k ==> target > PrefixWeight(pool, j);
    FirstReachingIsLeast(pool, target, k);
  }

  /** A video that was playing is remembered as the last one when it ends. */
  lemma VideoEndedRemembersVideo(state: SceneState)
    ensures var next := ReduceSceneState(state, VideoEnded);
      next.activeVideo.None? && !next.isVideoVisible
      && next.lastVideo == (if state.activeVideo.Some? then state.activeVideo else state.lastVideo)
      && next.idleWeights == state.idleWeights
  {
  }

  /** The phase after a video: greeting becomes idle, scanning becomes reviewing, and every
      other phase stays, error included. */
  lemma PhaseAfterVideo(phase: ScenePhase)
    ensures GetPhaseAfterVideo(phase) == Idle <==> phase == Greeting || phase == Idle
    ensures GetPhaseAfterVideo(phase) == Reviewing <==> phase == Scanning || phase == Reviewing
    ensures phase != Greeting && phase != Scanning ==> GetPhaseAfterVideo(phase) == phase
  {
  }

  /** An error phase survives the end of the video that was playing. */
  lemma ErrorSurvivesVideoEnd(state: SceneState)
    ensures ReduceSceneState(ReduceSceneState(state, SetPhase(Error)), VideoEnded).phase == Error
  {
  }

  /** INIT plays the greeting; PLAY_VIDEO shows its video and records it as the last one,
      moving to the phase it names or staying. */
  lemma PlayEvents(state: SceneState, id: SceneVideoId, nextPhase: Option<ScenePhase>)
    ensures var s := ReduceSceneState(state, Init);
      s.phase == Greeting && s.activeVideo == Some(Greet) && s.isVideoVisible && s.lastVideo == Some(Greet)
    ensures var s := ReduceSceneState(state, PlayVideo(id, nextPhase));
      s.activeVideo == Some(id) && s.lastVideo == Some(id) && s.isVideoVisible
      && (nextPhase.Some? ==> s.phase == nextPhase.value) && (nextPhase.None? ==> s.phase == state.phase)
  {
  }

  /** SET_PHASE changes only the phase; UPDATE_IDLE_WEIGHTS changes only that phase's clips. */
  lemma PhaseAndWeightEventsAreLocal(state: SceneState, phase: ScenePhase, clips: seq<IdleClip>)
    ensures ReduceSceneState(state, SetPhase(phase)) == state.(phase := phase)
    ensures var s := ReduceSceneState(state, UpdateIdleWeights(phase, clips));
      s.phase == state.phase && s.activeVideo == state.activeVideo && s.lastVideo == state.lastVideo
      && s.isVideoVisible == state.isVideoVisible
      && s.idleWeights[phase] == clips
      && forall p :: p in state.idleWeights && p != phase ==> p in s.idleWeights && s.idleWeights[p] == state.idleWeights[p]
  {
  }

  /** The controller starts in a valid state, in the requested phase or boot, with nothing
      playing. */
  lemma InitialSceneIsValid(options: SceneControllerOptions)
    ensures var s := InitialSceneState(options);
      ValidScene(s) && s.activeVideo.None? && s.lastVideo.None?
      && s.phase == (if options.initialPhase.Some? then options.initialPhase.value else Boot)
  {
  }

  /** Every event keeps the state valid. */
  lemma ReduceKeepsValid(state: SceneState, event: SceneEvent)
    requires ValidScene(state)
    ensures ValidScene(ReduceSceneState(state, event))
  {
  }

  /** Subscribing and then unsubscribing a new listener restores the list, and the list
      never holds a listener twice. */
  lemma {:induction false} SubscribeRoundTrip(listeners: seq<nat>, listener: nat)
    requires NoDuplicates(listeners)
    ensures listener !in listeners ==> RemoveListener(AddListener(listeners, listener), listener) == listeners
    ensures NoDuplicates(AddListener(listeners, listener))
    decreases |listeners|
  {
    if listener !in listeners {
      RemoveAbsent(listeners, listener);
      RemoveLast(listeners, listener);
    }
  }

  lemma {:induction false} RemoveAbsent(listeners: seq<nat>, listener: nat)
    requires listener !in listeners
    ensures RemoveListener(listeners, listener) == listeners
    decreases |listeners|
  {
    if listeners != [] {
      RemoveAbsent(listeners[1..], listener);
    }
  }

  lemma {:induction false} RemoveLast(listeners: seq<nat>, listener: nat)
    ensures RemoveListener(listeners + [listener], listener) == RemoveListener(listeners, listener)
    decreases |listeners|
  {
    if listeners == [] {
      assert RemoveListener([listener], listener) == RemoveListener([listener][1..], listener);
    } else {
      assert (listeners + [listener])[1..] == listeners[1..] + [listener];
      RemoveLast(listeners[1..], listener);
    }
  }

  /** Unsubscribing removes exactly that listener, keeps every other one, and keeps the
      list free of duplicates. */
  lemma {:induction false} UnsubscribeKeepsOthers(listeners: seq<nat>, listener: nat)
    requires NoDuplicates(listeners)
    ensures NoDuplicates(RemoveListener(listeners, listener))
    ensures listener !in RemoveListener(listeners, listener)
    ensures forall x :: x != listener ==> (x in RemoveListener(listeners, listener) <==> x in listeners)
    decreases |listeners|
  {
    if listeners != [] {
      UnsubscribeKeepsOthers(listeners[1..], listener);
      assert listeners[0] !in listeners[1..];
    }
  }
}
