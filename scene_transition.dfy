/**
 * A scene-transition trigger: the first time the player walks into it, it
 * latches, hands the target spawn-point id to the game manager and then
 * asks for the target scene to be loaded; a trigger with no scene to load
 * releases its latch instead, and one that finds no game manager fails on
 * the handoff, staying latched with nothing loaded.
 */
module Transition {

  /** A C# string reference: `null`, or a string (possibly empty). */
  datatype Text = Null | Str(value: string)

  predicate IsNullOrEmpty(t: Text) {
    t == Null || t.value == ""
  }

  /** A scene load request, with the spawn-point id the game manager held when it was made. */
  datatype LoadRequest = LoadRequest(scene: string, spawnPointAtRequest: Text)

  /** The game manager singleton as the trigger finds it: missing, or present with its handoff slot. */
  datatype Manager = Absent | Present(nextSpawnPointID: Text)

  /** The trigger's latch, the game manager, and the scene loads requested. */
  datatype TransitionState = TransitionState(isLoading: bool, manager: Manager, requests: seq<LoadRequest>)

  /**
   * `LoadTargetScene`. With no game manager the handoff throws before the
   * load is asked for, so nothing changes (the latch included).
   */
  function LoadTarget(st: TransitionState, sceneToLoad: Text, targetSpawnPointID: Text): (r: TransitionState)
    ensures IsNullOrEmpty(sceneToLoad) ==> r == st.(isLoading := false)
    ensures !IsNullOrEmpty(sceneToLoad) && st.manager.Absent? ==> r == st
    ensures !IsNullOrEmpty(sceneToLoad) && st.manager.Present? ==>
      r == TransitionState(st.isLoading, Present(targetSpawnPointID),
                           st.requests + [LoadRequest(sceneToLoad.value, targetSpawnPointID)])
  {
    if IsNullOrEmpty(sceneToLoad) then st.(isLoading := false)
    else if st.manager.Absent? then st
    else
      var handedOff := st.(manager := Present(targetSpawnPointID));
      handedOff.(requests := handedOff.requests + [LoadRequest(sceneToLoad.value, handedOff.manager.nextSpawnPointID)])
  }

  /** `OnTriggerEnter2D` for a collider with tag `otherTag`. */
  function Trigger(st: TransitionState, otherTag: string, sceneToLoad: Text, targetSpawnPointID: Text): TransitionState {
    if otherTag == "Player" && !st.isLoading then LoadTarget(st.(isLoading := true), sceneToLoad, targetSpawnPointID)
    else st
  }

  /**
   * The trigger acts only for the player while not latched. When it acts
   * with a scene to load and a game manager it stays latched, hands off the
   * target spawn point and requests exactly one load, made after the
   * handoff; with none to load it changes nothing; with no game manager it
   * stays latched and nothing else changes.
   */
  lemma TriggerEffect(st: TransitionState, otherTag: string, sceneToLoad: Text, targetSpawnPointID: Text)
    ensures var r := Trigger(st, otherTag, sceneToLoad, targetSpawnPointID);
      && (otherTag != "Player" || st.isLoading ==> r == st)
      && (otherTag == "Player" && !st.isLoading && IsNullOrEmpty(sceneToLoad) ==> r == st)
      && (otherTag == "Player" && !st.isLoading && !IsNullOrEmpty(sceneToLoad) && st.manager.Absent? ==>
            r == st.(isLoading := true))
      && (otherTag == "Player" && !st.isLoading && !IsNullOrEmpty(sceneToLoad) && st.manager.Present? ==>
            && r.isLoading && r.manager == Present(targetSpawnPointID)
            && r.requests == st.requests + [LoadRequest(sceneToLoad.value, targetSpawnPointID)])
  {
  }

  /** Once a trigger has started a load, every later trigger is ignored. */
  lemma {:induction false} LatchedIgnoresTriggers(st: TransitionState, tags: seq<string>, sceneToLoad: Text, targetSpawnPointID: Text)
    requires st.isLoading
    decreases |tags|
    ensures TriggerAll(st, tags, sceneToLoad, targetSpawnPointID) == st
  {
    if tags != [] {
      LatchedIgnoresTriggers(st, tags[1..], sceneToLoad, targetSpawnPointID);
    }
  }

  /** The triggers for the colliders `tags`, one after another. */
  function TriggerAll(st: TransitionState, tags: seq<string>, sceneToLoad: Text, targetSpawnPointID: Text): TransitionState
    decreases |tags|
  {
    if tags == [] then st
    else TriggerAll(Trigger(st, tags[0], sceneToLoad, targetSpawnPointID), tags[1..], sceneToLoad, targetSpawnPointID)
  }

  /**
   * However many colliders enter, a trigger with a scene to load requests
   * at most one load.
   */
  lemma {:induction false} AtMostOneLoad(st: TransitionState, tags: seq<string>, sceneToLoad: Text, targetSpawnPointID: Text)
    requires !st.isLoading
    decreases |tags|
    ensures |TriggerAll(st, tags, sceneToLoad, targetSpawnPointID).requests| <= |st.requests| + 1
  {
    if tags != [] {
      var next := Trigger(st, tags[0], sceneToLoad, targetSpawnPointID);
      if next.isLoading {
        LatchedIgnoresTriggers(next, tags[1..], sceneToLoad, targetSpawnPointID);
      } else {
        AtMostOneLoad(next, tags[1..], sceneToLoad, targetSpawnPointID);
      }
    }
  }

  class GameManager {
    var nextSpawnPointID: Text

    constructor()
      ensures nextSpawnPointID == Null
    {
      nextSpawnPointID := Null;
    }
  }

  /** The scene loader, seen only through the loads it is asked for. */
  class SceneLoads {
    var requests: seq<LoadRequest>

    constructor()
      ensures requests == []
    {
      requests := [];
    }

    method LoadScene(scene: string, game: GameManager)
      modifies this
      ensures requests == old(requests) + [LoadRequest(scene, game.nextSpawnPointID)]
    {
      requests := requests + [LoadRequest(scene, game.nextSpawnPointID)];
    }
  }

  class SceneTransition {
    const sceneToLoad: Text
    const targetSpawnPointID: Text
    var isLoading: bool

    constructor(sceneToLoad: Text, targetSpawnPointID: Text)
      ensures this.sceneToLoad == sceneToLoad && this.targetSpawnPointID == targetSpawnPointID && !isLoading
    {
      this.sceneToLoad, this.targetSpawnPointID := sceneToLoad, targetSpawnPointID;
      isLoading := false;
    }

    /** `game` is `GameManager.Instance`, which is null when no manager has woken up. */
    function State(game: GameManager?, loads: SceneLoads): TransitionState
      reads this, game, loads
    {
      TransitionState(isLoading, if game == null then Absent else Present(game.nextSpawnPointID), loads.requests)
    }

    method OnTriggerEnter2D(otherTag: string, game: GameManager?, loads: SceneLoads)
      modifies this, game, loads
      ensures State(game, loads) == Trigger(old(State(game, loads)), otherTag, sceneToLoad, targetSpawnPointID)
    {
      if otherTag == "Player" && !isLoading {
        isLoading := true;
        LoadTargetScene(game, loads);
      }
    }

    /** With no game manager, the handoff throws: the method ends there. */
    method LoadTargetScene(game: GameManager?, loads: SceneLoads)
      modifies this, game, loads
      ensures State(game, loads) == LoadTarget(old(State(game, loads)), sceneToLoad, targetSpawnPointID)
    {
      if IsNullOrEmpty(sceneToLoad) {
        isLoading := false;
        return;
      }
      if game == null {
        return;
      }
      game.nextSpawnPointID := targetSpawnPointID;
      loads.LoadScene(sceneToLoad.value, game);
    }
  }
}
