/** CellBasedRandomAgent on AbstractRandomAgent: the agent that keeps a
    ledger of the resources the avatar has picked, adds a resource atom for
    every resource picked at least once, and looks ahead ten times for a
    state that ends the game, recording it provisionally. */
module CellBasedAgentModel {
  import opened Options
  import opened Seqs
  import opened Text
  import opened Domain
  import opened Variables
  import opened Connections
  import opened Grounding
  import opened Actions
  import opened Ledger
  import opened ElementsMatrix
  import opened States
  import opened PlanTrace

  /** How many times act re-simulates the chosen action. */
  const NUM_SIMULATIONS := 10

  // ---------------------------------------------------------------------
  // The look-ahead

  /** The index of the first simulated state that ends the game. */
  function FirstTerminal(futures: seq<Snapshot>): (r: Option<nat>)
    ensures r.Some? ==> r.value < |futures| && futures[r.value].isGameOver
    ensures r.Some? ==> forall j :: 0 <= j < r.value ==> !futures[j].isGameOver
    ensures r.None? <==> forall j :: 0 <= j < |futures| ==> !futures[j].isGameOver
    decreases |futures|
  {
    if futures == [] then None
    else if futures[0].isGameOver then Some(0)
    else match FirstTerminal(futures[1..])
      case None => None
      case Some(t) => Some(t + 1)
  }

  /** No state among the first i ends the game. */
  predicate Calm(futures: seq<Snapshot>, i: int)
    requires i <= |futures|
  {
    forall j :: 0 <= j < i ==> !futures[j].isGameOver
  }

  lemma CalmSnoc(futures: seq<Snapshot>, i: nat)
    requires i < |futures| && Calm(futures, i) && !futures[i].isGameOver
    ensures Calm(futures, i + 1)
  {
  }

  lemma FirstTerminalAt(futures: seq<Snapshot>, i: nat)
    requires i < |futures| && futures[i].isGameOver && Calm(futures, i)
    ensures FirstTerminal(futures) == Some(i)
  {
  }

  lemma FirstTerminalNone(futures: seq<Snapshot>)
    requires Calm(futures, |futures|)
    ensures FirstTerminal(futures) == None
  {
  }

  /** The provisional game-over state of the previous turn is dropped. */
  function RolledBack(gamePredicates: seq<string>, isGameOverDetected: bool): (r: seq<string>)
    requires isGameOverDetected ==> |gamePredicates| > 0
    ensures isGameOverDetected ==> r + [gamePredicates[|gamePredicates| - 1]] == gamePredicates
    ensures !isGameOverDetected ==> r == gamePredicates
  {
    if isGameOverDetected then gamePredicates[..|gamePredicates| - 1] else gamePredicates
  }

  // ---------------------------------------------------------------------
  // Resource atoms

  /** The picked-resource template of key k with the avatar variable bound
      to the avatar object, upper-cased. */
  function ResourceAtom(info: GameInformation, k: string): string
    requires k in info.pickedResourcesPredicates
  {
    Upper(Replace(info.pickedResourcesPredicates[k], info.avatarVariable, AvatarInstance(info)))
  }

  predicate KeysKnown(info: GameInformation, keys: seq<string>, picked: map<string, int>) {
    forall i :: 0 <= i < |keys| ==> keys[i] in picked && keys[i] in info.pickedResourcesPredicates
  }

  lemma KeysKnownPrefix(info: GameInformation, keys: seq<string>, picked: map<string, int>, i: nat)
    requires KeysKnown(info, keys, picked) && i <= |keys|
    ensures KeysKnown(info, keys[..i], picked)
  {
    assert forall j :: 0 <= j < i ==> keys[..i][j] == keys[j];
  }

  /** The resource atoms, in key order, of the keys picked at least once. */
  function ResourcePredicates(info: GameInformation, keys: seq<string>, picked: map<string, int>): seq<string>
    requires KeysKnown(info, keys, picked)
    decreases |keys|
  {
    if keys == [] then []
    else
      var k := keys[|keys| - 1];
      ResourcePredicates(info, keys[..|keys| - 1], picked) + (if picked[k] > 0 then [ResourceAtom(info, k)] else [])
  }

  /** The loop of createResourcePredicates over the ledger's keys. */
  method CollectResourcePredicates(info: GameInformation, keys: seq<string>, picked: map<string, int>)
    returns (resourcePredicates: seq<string>)
    requires KeysKnown(info, keys, picked)
    ensures resourcePredicates == ResourcePredicates(info, keys, picked)
  {
    resourcePredicates := [];
    var i := 0;
    KeysKnownPrefix(info, keys, picked, 0);
    while i < |keys|
      invariant i <= |keys| && KeysKnown(info, keys[..i], picked)
      invariant resourcePredicates == ResourcePredicates(info, keys[..i], picked)
    {
      var resource := keys[i];
      KeysKnownPrefix(info, keys, picked, i + 1);
      assert keys[..i + 1][..i] == keys[..i];
      if picked[resource] > 0 {
        resourcePredicates := resourcePredicates + [ResourceAtom(info, resource)];
      }
      i := i + 1;
    }
    assert keys[..i] == keys;
  }

  /** An atom is a resource atom exactly when it is the atom of a key the
      ledger counts above zero. */
  lemma {:induction false} ResourcePredicatesMembers(info: GameInformation, keys: seq<string>, picked: map<string, int>, a: string)
    requires KeysKnown(info, keys, picked)
    ensures a in ResourcePredicates(info, keys, picked) <==>
      exists i :: 0 <= i < |keys| && picked[keys[i]] > 0 && a == ResourceAtom(info, keys[i])
    decreases |keys|
  {
    if keys != [] {
      var p := keys[..|keys| - 1];
      ResourcePredicatesMembers(info, p, picked, a);
      if a in ResourcePredicates(info, keys, picked) && a !in ResourcePredicates(info, p, picked) {
        assert picked[keys[|keys| - 1]] > 0 && a == ResourceAtom(info, keys[|keys| - 1]);
      }
      if exists i :: 0 <= i < |keys| && picked[keys[i]] > 0 && a == ResourceAtom(info, keys[i]) {
        var i :| 0 <= i < |keys| && picked[keys[i]] > 0 && a == ResourceAtom(info, keys[i]);
        if i < |p| {
          assert p[i] == keys[i];
        }
      }
    }
  }

  /** There are no resource atoms while no key is counted above zero. */
  lemma {:induction false} ResourcePredicatesNone(info: GameInformation, keys: seq<string>, picked: map<string, int>)
    requires KeysKnown(info, keys, picked)
    requires forall i :: 0 <= i < |keys| ==> picked[keys[i]] <= 0
    ensures ResourcePredicates(info, keys, picked) == []
    decreases |keys|
  {
    if keys != [] {
      ResourcePredicatesNone(info, keys[..|keys| - 1], picked);
    }
  }

  /** Every resource atom is upper case. */
  lemma ResourcePredicatesUpper(info: GameInformation, keys: seq<string>, picked: map<string, int>)
    requires KeysKnown(info, keys, picked)
    ensures forall a :: a in ResourcePredicates(info, keys, picked) ==> NoLower(a)
  {
    forall a | a in ResourcePredicates(info, keys, picked)
      ensures NoLower(a)
    {
      ResourcePredicatesMembers(info, keys, picked, a);
      var i :| 0 <= i < |keys| && picked[keys[i]] > 0 && a == ResourceAtom(info, keys[i]);
      UpperIsUpper(Replace(info.pickedResourcesPredicates[keys[i]], info.avatarVariable, AvatarInstance(info)));
    }
  }

  class CellBasedRandomAgent {
    const info: GameInformation
    const gameElementVars: map<string, seq<string>>
    /** The iteration order of a cell's set of sprite keys. */
    const enumerate: set<string> -> seq<string>
    const connectionSet: seq<string>
    /** pickedResources. */
    const ledger: ResourceLedger
    /** The static executedActions and gamePredicates lists. */
    const trace: Trace
    var isGameOverDetected: bool
    /** The size of the map the connections were generated for. */
    ghost const width: nat
    ghost const height: nat

    ghost predicate Valid()
      reads ledger
    {
      Enumerates(enumerate) &&
      gameElementVars.Keys == info.gameElementsCorrespondence.Keys &&
      VarsCover(info, gameElementVars) &&
      connectionSet == ConnectionSet(info, width, height) &&
      ledger.Valid() && Elems(ledger.keys) == info.pickedResourcesPredicates.Keys
    }

    /** The state string of a snapshot with the ledger at picked: element
        atoms, resource atoms, then connection atoms. */
    function State(s: Snapshot, picked: map<string, int>): string
      requires ReadableGrid(s.elements) && KeysKnown(info, ledger.keys, picked)
    {
      Render(SnapshotAtoms(info, Plain, gameElementVars, enumerate, s) +
             ResourcePredicates(info, ledger.keys, picked) + connectionSet)
    }

    /** The state the look-ahead records: the first predicted state that
        ends the game, if any. */
    function Predicted(futures: seq<Snapshot>, picked: map<string, int>): seq<string>
      requires KeysKnown(info, ledger.keys, picked)
      requires FirstTerminal(futures).Some? ==> ReadableGrid(futures[FirstTerminal(futures).value].elements)
    {
      match FirstTerminal(futures)
      case Some(t) => [State(futures[t], picked)]
      case None => []
    }

    lemma PredictedAt(futures: seq<Snapshot>, picked: map<string, int>, t: nat)
      requires KeysKnown(info, ledger.keys, picked)
      requires FirstTerminal(futures) == Some(t) && ReadableGrid(futures[t].elements)
      ensures Predicted(futures, picked) == [State(futures[t], picked)]
    {
    }

    /** The variables are extracted, every resource starts at 0, no game
        over is pending, and the connections of the initial map are
        generated. */
    constructor (info: GameInformation, enumerate: set<string> -> seq<string>, resourceKeys: seq<string>,
                 initial: Snapshot, trace: Trace)
      requires Enumerates(enumerate)
      requires NoDup(resourceKeys) && Elems(resourceKeys) == info.pickedResourcesPredicates.Keys
      requires ReadableGrid(initial.elements)
      requires ConnectionsCover(info, |initial.elements|, |initial.elements[0]|)
      ensures Valid() && fresh(ledger)
      ensures this.info == info && this.enumerate == enumerate && this.trace == trace
      ensures ledger.keys == resourceKeys && forall k :: k in ledger.picked ==> ledger.picked[k] == 0
      ensures !isGameOverDetected
      ensures width == |initial.elements| && height == |initial.elements[0]|
      ensures forall k :: k in gameElementVars ==>
        NoDup(gameElementVars[k]) && Elems(gameElementVars[k]) == VarSet(info.gameElementsCorrespondence[k])
    {
      this.info := info;
      this.enumerate := enumerate;
      this.trace := trace;
      var vars := ExtractVariablesFromPredicates(info.gameElementsCorrespondence);
      gameElementVars := vars;
      ledger := new ResourceLedger(info, resourceKeys);
      isGameOverDetected := false;
      var gameMap := GetGameElementsMatrix(initial.elements);
      width := gameMap.Length0;
      height := gameMap.Length1;
      var connections := GenerateConnectionPredicates(info, gameMap.Length0, gameMap.Length1);
      connectionSet := connections;
    }

    /** createResourcePredicates: one atom per key counted above zero. */
    method CreateResourcePredicates() returns (resourcePredicates: seq<string>)
      requires Valid()
      ensures KeysKnown(info, ledger.keys, ledger.picked)
      ensures resourcePredicates == ResourcePredicates(info, ledger.keys, ledger.picked)
    {
      assert KeysKnown(info, ledger.keys, ledger.picked);
      resourcePredicates := CollectResourcePredicates(info, ledger.keys, ledger.picked);
    }

    /** translateGameStateToPDDL: the element atoms, the resource atoms and
        the connection atoms, joined and wrapped. */
    method TranslateGameStateToPDDL(s: Snapshot) returns (r: string)
      requires Valid() && Translatable(info, gameElementVars, enumerate, s)
      ensures KeysKnown(info, ledger.keys, ledger.picked)
      ensures r == State(s, ledger.picked)
    {
      var predicates := GroundSnapshot(info, Plain, gameElementVars, enumerate, s);
      var resourcePredicates := CreateResourcePredicates();
      predicates := predicates + resourcePredicates;
      predicates := predicates + connectionSet;
      r := "(" + Join(" ", predicates) + ")";
    }

    /** Translates a state and adds it to the trace. */
    method RecordState(s: Snapshot)
      requires Valid() && Translatable(info, gameElementVars, enumerate, s)
      modifies trace
      ensures KeysKnown(info, ledger.keys, ledger.picked)
      ensures trace.gamePredicates == old(trace.gamePredicates) + [State(s, ledger.picked)]
      ensures trace.executedActions == old(trace.executedActions)
    {
      var predicates := TranslateGameStateToPDDL(s);
      trace.AddState(predicates);
    }

    /** act, for the action drawn and the states the forward model predicts
        for it: futures[0] is the state the ledger is updated against, and
        futures[i] the state the i-th simulation checks. The state of last
        turn's look-ahead is dropped, the current state recorded with the
        ledger as it was, the action recorded, and the first predicted
        game-over state recorded with the updated ledger. */
    method Act(s: Snapshot, action: GameAction, futures: seq<Snapshot>) returns (chosen: GameAction)
      requires Valid() && Translatable(info, gameElementVars, enumerate, s) && s.blockSize > 0
      requires |futures| == NUM_SIMULATIONS
      requires SpritesKnown(s.resources, Elems(ledger.keys)) && SpritesKnown(futures[0].resources, Elems(ledger.keys))
      requires FirstTerminal(futures).Some? ==> Translatable(info, gameElementVars, enumerate, futures[FirstTerminal(futures).value])
      requires isGameOverDetected ==> |trace.gamePredicates| > 0
      modifies this, trace, ledger
      ensures Valid() && chosen == action
      ensures ledger.picked.Keys == old(ledger.picked.Keys)
      ensures forall k :: k in ledger.picked ==>
        ledger.picked[k] == old(ledger.picked[k]) + Collected(s.resources, futures[0].resources, k)
      ensures isGameOverDetected <==> exists j :: 0 <= j < |futures| && futures[j].isGameOver
      ensures KeysKnown(info, ledger.keys, old(ledger.picked)) && KeysKnown(info, ledger.keys, ledger.picked)
      ensures trace.gamePredicates ==
        RolledBack(old(trace.gamePredicates), old(isGameOverDetected)) + [State(s, old(ledger.picked))] +
        Predicted(futures, ledger.picked)
      ensures trace.executedActions == old(trace.executedActions) + [AbstractActionAtom(info, s, action, futures[0])]
      ensures old(|trace.gamePredicates| == |trace.executedActions| + if isGameOverDetected then 1 else 0) ==>
        |trace.gamePredicates| == |trace.executedActions| + if isGameOverDetected then 1 else 0
    {
      BeginTurn(s, futures[0]);
      var instantiatedAction := InstantiateAction(s, action, futures[0]);
      trace.AddAction(instantiatedAction);
      LookAhead(futures);
      chosen := action;
    }

    /** The first half of act: last turn's provisional state is dropped,
        the current state recorded, and the ledger updated against the
        predicted next state. */
    method BeginTurn(s: Snapshot, next: Snapshot)
      requires Valid() && Translatable(info, gameElementVars, enumerate, s)
      requires SpritesKnown(s.resources, Elems(ledger.keys)) && SpritesKnown(next.resources, Elems(ledger.keys))
      requires isGameOverDetected ==> |trace.gamePredicates| > 0
      modifies this, trace, ledger
      ensures Valid() && !isGameOverDetected
      ensures ledger.picked.Keys == old(ledger.picked.Keys)
      ensures forall k :: k in ledger.picked ==>
        ledger.picked[k] == old(ledger.picked[k]) + Collected(s.resources, next.resources, k)
      ensures KeysKnown(info, ledger.keys, old(ledger.picked))
      ensures trace.gamePredicates ==
        RolledBack(old(trace.gamePredicates), old(isGameOverDetected)) + [State(s, old(ledger.picked))]
      ensures trace.executedActions == old(trace.executedActions)
    {
      RollBack();
      var predicates := TranslateGameStateToPDDL(s);
      trace.AddState(predicates);
      ledger.UpdatePickedResources(s.resources, next.resources);
    }

    /** The action atom of act: the avatar's cell from its pixel position,
        then USE through createUseAction and every other action through
        createMovementAction. */
    method InstantiateAction(s: Snapshot, action: GameAction, next: Snapshot) returns (instantiatedAction: string)
      requires s.blockSize > 0
      ensures instantiatedAction == AbstractActionAtom(info, s, action, next)
    {
      var actionStr := AbstractActionName(action);
      var x := JavaDiv(s.avatarPosition.x, s.blockSize);
      var y := JavaDiv(s.avatarPosition.y, s.blockSize);
      var isSameOrientation := s.orientation == next.orientation;
      if action == ActionUse {
        instantiatedAction := UseAction(info, actionStr, x, y, s.orientation);
      } else {
        instantiatedAction := MovementAction(info, actionStr, x, y, s.orientation, isSameOrientation);
      }
    }

    /** The state recorded for last turn's predicted game over is removed:
        the game went on. */
    method RollBack()
      requires isGameOverDetected ==> |trace.gamePredicates| > 0
      modifies this, trace
      ensures !isGameOverDetected
      ensures trace.gamePredicates == RolledBack(old(trace.gamePredicates), old(isGameOverDetected))
      ensures trace.executedActions == old(trace.executedActions)
    {
      if isGameOverDetected {
        trace.RemoveLastState();
        isGameOverDetected := false;
      }
    }

    /** The simulation loop: the predicted states are checked in order until
        one ends the game, which is translated and recorded. */
    method LookAhead(futures: seq<Snapshot>)
      requires Valid() && !isGameOverDetected && |futures| == NUM_SIMULATIONS
      requires FirstTerminal(futures).Some? ==> Translatable(info, gameElementVars, enumerate, futures[FirstTerminal(futures).value])
      modifies this, trace
      ensures isGameOverDetected == FirstTerminal(futures).Some?
      ensures KeysKnown(info, ledger.keys, ledger.picked)
      ensures trace.gamePredicates == old(trace.gamePredicates) +
        Predicted(futures, ledger.picked)
      ensures trace.executedActions == old(trace.executedActions)
    {
      assert KeysKnown(info, ledger.keys, ledger.picked);
      ghost var picked := ledger.picked;
      var i := 0;
      while i < NUM_SIMULATIONS && !isGameOverDetected
        invariant 0 <= i <= NUM_SIMULATIONS
        invariant !isGameOverDetected ==> trace.gamePredicates == old(trace.gamePredicates) && Calm(futures, i)
        invariant isGameOverDetected ==>
          FirstTerminal(futures).Some? && trace.gamePredicates == old(trace.gamePredicates) + Predicted(futures, picked)
        invariant trace.executedActions == old(trace.executedActions)
        invariant ledger.picked == picked
      {
        var nextState := futures[i];
        if nextState.isGameOver {
          FirstTerminalAt(futures, i);
          PredictedAt(futures, picked, i);
          RecordState(nextState);
          isGameOverDetected := true;
        } else {
          CalmSnoc(futures, i);
        }
        i := i + 1;
      }
      if !isGameOverDetected {
        FirstTerminalNone(futures);
      }
    }

    /** A state string has no lower-case letter. */
    lemma StateIsUpper(s: Snapshot, picked: map<string, int>)
      requires Valid() && ReadableGrid(s.elements) && KeysKnown(info, ledger.keys, picked)
      ensures NoLower(State(s, picked))
    {
      var atoms := SnapshotAtoms(info, Plain, gameElementVars, enumerate, s);
      var resources := ResourcePredicates(info, ledger.keys, picked);
      SnapshotAtomsUpper(info, Plain, gameElementVars, enumerate, s);
      ResourcePredicatesUpper(info, ledger.keys, picked);
      ConnectionSetUpper(info, width, height);
      RenderUpper(atoms + resources, connectionSet);
    }

    /** Until a resource is picked, a state carries no resource atom: it is
        the element atoms and then the connections. */
    lemma NothingPickedNoResources(s: Snapshot, picked: map<string, int>)
      requires ReadableGrid(s.elements) && KeysKnown(info, ledger.keys, picked)
      requires forall k :: k in picked ==> picked[k] == 0
      ensures State(s, picked) == Render(SnapshotAtoms(info, Plain, gameElementVars, enumerate, s) + connectionSet)
    {
      ResourcePredicatesNone(info, ledger.keys, picked);
      assert SnapshotAtoms(info, Plain, gameElementVars, enumerate, s) + [] ==
        SnapshotAtoms(info, Plain, gameElementVars, enumerate, s);
    }
  }
}
