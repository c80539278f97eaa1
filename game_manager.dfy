/** The level-flow flags of the GameManager: the level-start sequence (fade in,
    then hand control to the player) and the level-end sequence (fade out, then
    load the requested scene), plus the game-wide tags the other components test. */
module GameFlow {
  import opened InputFrame

  const PlayerTag: string := "Player"
  const EnemyTag: string := "Enemy"

  /** The value `_sceneToLoad` holds before any level change is requested. */
  const NoScene: int := -1

  /** Calls the manager makes on its collaborators, in order: the fade image, the
      player controller's EnableControl, the player movement's SetInputs and the
      scene loader. */
  datatype FlowEffect =
    | SubscribedToFade
    | FadeMadeOpaque
    | ControlEnabled(enable: bool)
    | MovementInputsSet(inputs: Inputs)
    | FadeInStarted(duration: real)
    | FadeOutStarted(duration: real)
    | SceneLoaded(scene: int)

  /** The serialized settings of the manager. */
  datatype FlowSettings = FlowSettings(
    fadeDuration: real,
    enableControlAfterFadeIn: bool,
    forcedControlsAtLevelStart: Inputs,
    nextLevelFadeDuration: real)

  datatype Flow = Flow(
    inLevelStartSequence: bool,
    inLevelEndSequence: bool,
    sceneToLoad: int,
    effects: seq<FlowEffect>)

  /** Start: the start sequence begins with control taken away and the forced
      level-start inputs applied; the end sequence and the scene are untouched. */
  function Started(f: Flow, settings: FlowSettings): (r: Flow)
    ensures r.inLevelStartSequence
    ensures r.inLevelEndSequence == f.inLevelEndSequence && r.sceneToLoad == f.sceneToLoad
    ensures r.effects == f.effects + [SubscribedToFade, FadeMadeOpaque, ControlEnabled(false),
                                      MovementInputsSet(settings.forcedControlsAtLevelStart),
                                      FadeInStarted(settings.fadeDuration)]
  {
    Flow(true, f.inLevelEndSequence, f.sceneToLoad,
         f.effects + [SubscribedToFade, FadeMadeOpaque, ControlEnabled(false),
                      MovementInputsSet(settings.forcedControlsAtLevelStart),
                      FadeInStarted(settings.fadeDuration)])
  }

  /** LoadNextLevel: the end sequence begins with control taken away, the given
      inputs forced and the scene recorded; the start flag is not touched. */
  function LevelChangeRequested(f: Flow, settings: FlowSettings, forcedControls: Inputs, sceneToLoad: int): (r: Flow)
    ensures r.inLevelEndSequence && r.sceneToLoad == sceneToLoad
    ensures r.inLevelStartSequence == f.inLevelStartSequence
    ensures r.effects == f.effects + [ControlEnabled(false), MovementInputsSet(forcedControls),
                                      FadeOutStarted(settings.nextLevelFadeDuration)]
  {
    f.(sceneToLoad := sceneToLoad, inLevelEndSequence := true,
       effects := f.effects + [ControlEnabled(false), MovementInputsSet(forcedControls),
                               FadeOutStarted(settings.nextLevelFadeDuration)])
  }

  /** NotifyFadeInFinished: ends the start sequence and gives control back only
      during the start sequence and when the settings ask for it; otherwise nothing. */
  function FadeInFinished(f: Flow, settings: FlowSettings): (r: Flow)
    ensures f.inLevelStartSequence && settings.enableControlAfterFadeIn ==>
              r == f.(inLevelStartSequence := false, effects := f.effects + [ControlEnabled(true)])
    ensures !(f.inLevelStartSequence && settings.enableControlAfterFadeIn) ==> r == f
    ensures settings.enableControlAfterFadeIn ==> !r.inLevelStartSequence
  {
    if f.inLevelStartSequence && settings.enableControlAfterFadeIn then
      f.(inLevelStartSequence := false, effects := f.effects + [ControlEnabled(true)])
    else
      f
  }

  /** NotifyFadeOutFinished: during the end sequence, ends it and loads exactly the
      recorded scene; otherwise nothing. */
  function FadeOutFinished(f: Flow): (r: Flow)
    ensures f.inLevelEndSequence ==> r == f.(inLevelEndSequence := false, effects := f.effects + [SceneLoaded(f.sceneToLoad)])
    ensures !f.inLevelEndSequence ==> r == f
    ensures !r.inLevelEndSequence
  {
    if f.inLevelEndSequence then
      f.(inLevelEndSequence := false, effects := f.effects + [SceneLoaded(f.sceneToLoad)])
    else
      f
  }

  /** A second fade-in or fade-out notification changes nothing. */
  lemma FadeCallbacksAreIdempotent(f: Flow, settings: FlowSettings)
    ensures FadeInFinished(FadeInFinished(f, settings), settings) == FadeInFinished(f, settings)
    ensures FadeOutFinished(FadeOutFinished(f)) == FadeOutFinished(f)
  {
  }

  /** A level change followed by the end of its fade-out loads the requested scene. */
  lemma LevelChangeLoadsRequestedScene(f: Flow, settings: FlowSettings, forcedControls: Inputs, scene: int)
    ensures var r := FadeOutFinished(LevelChangeRequested(f, settings, forcedControls, scene));
            && r.effects[|r.effects| - 1] == SceneLoaded(scene)
            && !r.inLevelEndSequence
            && r.inLevelStartSequence == f.inLevelStartSequence
  {
  }

  /** The two flags are independent: a level change requested during the start
      sequence leaves it running, so the fade-in callback still hands control back
      while the end sequence is in progress. */
  lemma FadeInDuringEndSequenceEnablesControl(f: Flow, settings: FlowSettings, forcedControls: Inputs, scene: int)
    requires settings.enableControlAfterFadeIn
    ensures var r := FadeInFinished(LevelChangeRequested(Started(f, settings), settings, forcedControls, scene), settings);
            && r.inLevelEndSequence
            && r.effects[|r.effects| - 1] == ControlEnabled(true)
  {
  }

  /** The callbacks and requests the manager receives. */
  datatype FlowEvent =
    | StartEvent
    | LoadNextLevel(forcedControls: Inputs, sceneToLoad: int)
    | FadeInFinishedEvent
    | FadeOutFinishedEvent

  function Step(f: Flow, settings: FlowSettings, e: FlowEvent): Flow {
    match e
    case StartEvent => Started(f, settings)
    case LoadNextLevel(forced, scene) => LevelChangeRequested(f, settings, forced, scene)
    case FadeInFinishedEvent => FadeInFinished(f, settings)
    case FadeOutFinishedEvent => FadeOutFinished(f)
  }

  function Run(f: Flow, settings: FlowSettings, events: seq<FlowEvent>): Flow
    decreases |events|
  {
    if events == [] then f else Run(Step(f, settings, events[0]), settings, events[1..])
  }

  /** The number of scene loads among `effects`. */
  function Loads(effects: seq<FlowEffect>): nat
    decreases |effects|
  {
    if effects == [] then 0
    else Loads(effects[..|effects| - 1]) + (if effects[|effects| - 1].SceneLoaded? then 1 else 0)
  }

  /** The number of level-change requests among `events`. */
  function Requests(events: seq<FlowEvent>): nat
    decreases |events|
  {
    if events == [] then 0 else (if events[0].LoadNextLevel? then 1 else 0) + Requests(events[1..])
  }

  lemma {:induction false} LoadsAppend(a: seq<FlowEffect>, b: seq<FlowEffect>)
    ensures Loads(a + b) == Loads(a) + Loads(b)
    decreases |b|
  {
    if b == [] {
      assert a + b == a;
    } else {
      var n := |b| - 1;
      assert (a + b)[..|a + b| - 1] == a + b[..n];
      LoadsAppend(a, b[..n]);
    }
  }

  lemma {:induction false} NoLoads(effects: seq<FlowEffect>)
    requires forall i :: 0 <= i < |effects| ==> !effects[i].SceneLoaded?
    ensures Loads(effects) == 0
    decreases |effects|
  {
    if effects != [] {
      NoLoads(effects[..|effects| - 1]);
    }
  }

  function Pending(f: Flow): nat {
    if f.inLevelEndSequence then 1 else 0
  }

  /** One event adds at most the load that was pending, and a pending load only
      by a level-change request. */
  lemma StepAccounting(f: Flow, settings: FlowSettings, e: FlowEvent)
    ensures var g := Step(f, settings, e);
            && Loads(f.effects) <= Loads(g.effects)
            && Loads(g.effects) + Pending(g) <= Loads(f.effects) + Pending(f) + (if e.LoadNextLevel? then 1 else 0)
  {
    var g := Step(f, settings, e);
    var added: seq<FlowEffect>;
    match e {
      case StartEvent =>
        added := [SubscribedToFade, FadeMadeOpaque, ControlEnabled(false),
                  MovementInputsSet(settings.forcedControlsAtLevelStart), FadeInStarted(settings.fadeDuration)];
      case LoadNextLevel(forced, scene) =>
        added := [ControlEnabled(false), MovementInputsSet(forced), FadeOutStarted(settings.nextLevelFadeDuration)];
      case FadeInFinishedEvent =>
        added := if f.inLevelStartSequence && settings.enableControlAfterFadeIn then [ControlEnabled(true)] else [];
      case FadeOutFinishedEvent =>
        added := if f.inLevelEndSequence then [SceneLoaded(f.sceneToLoad)] else [];
    }
    assert g.effects == f.effects + added;
    LoadsAppend(f.effects, added);
    if !e.FadeOutFinishedEvent? {
      NoLoads(added);
    } else if f.inLevelEndSequence {
      assert Loads(added) == Loads([]) + 1;
    }
  }

  /** Every scene load is paid for by a level-change request: over any run, the
      scenes loaded plus the load still pending never exceed the requests made
      plus the load pending at the start. In particular a run with no request
      from a state outside the end sequence loads no scene. */
  lemma {:induction false} EachRequestLoadsAtMostOnce(f: Flow, settings: FlowSettings, events: seq<FlowEvent>)
    ensures var r := Run(f, settings, events);
            Loads(r.effects) + Pending(r) <= Loads(f.effects) + Pending(f) + Requests(events)
    ensures Loads(f.effects) <= Loads(Run(f, settings, events).effects)
    decreases |events|
  {
    if events != [] {
      StepAccounting(f, settings, events[0]);
      EachRequestLoadsAtMostOnce(Step(f, settings, events[0]), settings, events[1..]);
    }
  }

  class GameManager {
    var inLevelStartSequence: bool
    var inLevelEndSequence: bool
    var sceneToLoad: int
    var effects: seq<FlowEffect>
    const settings: FlowSettings

    function Snapshot(): Flow
      reads this
    {
      Flow(inLevelStartSequence, inLevelEndSequence, sceneToLoad, effects)
    }

    /** Field initialisation and Awake: no sequence running, no scene requested. */
    constructor (settings: FlowSettings)
      ensures Snapshot() == Flow(false, false, NoScene, []) && this.settings == settings
    {
      this.settings := settings;
      sceneToLoad := NoScene;
      effects := [];
      inLevelStartSequence := false;
      inLevelEndSequence := false;
    }

    method Start()
      modifies this
      ensures Snapshot() == Started(old(Snapshot()), settings)
    {
      effects := effects + [SubscribedToFade, FadeMadeOpaque];
      inLevelStartSequence := true;
      effects := effects + [ControlEnabled(false), MovementInputsSet(settings.forcedControlsAtLevelStart)];
      effects := effects + [FadeInStarted(settings.fadeDuration)];
    }

    method LoadNextLevel(forcedControls: Inputs, sceneToLoad: int)
      modifies this
      ensures Snapshot() == LevelChangeRequested(old(Snapshot()), settings, forcedControls, sceneToLoad)
    {
      effects := effects + [ControlEnabled(false), MovementInputsSet(forcedControls)];
      this.sceneToLoad := sceneToLoad;
      inLevelEndSequence := true;
      effects := effects + [FadeOutStarted(settings.nextLevelFadeDuration)];
    }

    method NotifyFadeInFinished()
      modifies this
      ensures Snapshot() == FadeInFinished(old(Snapshot()), settings)
    {
      if inLevelStartSequence && settings.enableControlAfterFadeIn {
        inLevelStartSequence := false;
        effects := effects + [ControlEnabled(true)];
      }
    }

    method NotifyFadeOutFinished()
      modifies this
      ensures Snapshot() == FadeOutFinished(old(Snapshot()))
    {
      if inLevelEndSequence {
        inLevelEndSequence := false;
        effects := effects + [SceneLoaded(sceneToLoad)];
      }
    }
  }
}
