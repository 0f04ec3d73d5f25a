/** RandomAgent: the agent that grounds every state with its cached
    connection atoms and records, each turn, the state it acts in, the
    action it takes, and the next state when that one ends the game. */
module RandomAgentModel {
  import opened Seqs
  import opened Text
  import opened Domain
  import opened Variables
  import opened Connections
  import opened Grounding
  import opened Actions
  import opened Ledger
  import opened ElementsMatrix
  import opened States
  import opened PlanTrace

  class RandomAgent {
    const info: GameInformation
    const gameElementVars: map<string, seq<string>>
    /** The iteration order of a cell's set of sprite keys. */
    const enumerate: set<string> -> seq<string>
    const connectionSet: seq<string>
    /** The static executedActions and gamePredicates lists. */
    const trace: Trace
    /** The size of the map the connections were generated for. */
    ghost const width: nat
    ghost const height: nat

    ghost predicate Valid() {
      Enumerates(enumerate) &&
      gameElementVars.Keys == info.gameElementsCorrespondence.Keys &&
      VarsCover(info, gameElementVars) &&
      connectionSet == ConnectionSet(info, width, height)
    }

    /** The state string of a snapshot: its element atoms, then the
        connection atoms in stored order. */
    function State(s: Snapshot): string
      requires ReadableGrid(s.elements)
    {
      Render(SnapshotAtoms(info, Plain, gameElementVars, enumerate, s) + connectionSet)
    }

    /** The placeholders of each sprite key are extracted, and the
        connections of the initial map generated once. */
    constructor (info: GameInformation, enumerate: set<string> -> seq<string>, initial: Snapshot, trace: Trace)
      requires Enumerates(enumerate)
      requires ReadableGrid(initial.elements)
      requires ConnectionsCover(info, |initial.elements|, |initial.elements[0]|)
      ensures Valid()
      ensures this.info == info && this.enumerate == enumerate && this.trace == trace
      ensures width == |initial.elements| && height == |initial.elements[0]|
      ensures forall k :: k in gameElementVars ==>
        NoDup(gameElementVars[k]) && Elems(gameElementVars[k]) == VarSet(info.gameElementsCorrespondence[k])
    {
      this.info := info;
      this.enumerate := enumerate;
      this.trace := trace;
      var vars := ExtractVariablesFromPredicates(info.gameElementsCorrespondence);
      gameElementVars := vars;
      var gameMap := GetGameElementsMatrix(initial.elements);
      width := gameMap.Length0;
      height := gameMap.Length1;
      var connections := GenerateConnectionPredicates(info, gameMap.Length0, gameMap.Length1);
      connectionSet := connections;
    }

    /** translateGameStateToPDDL: the element atoms, then every connection
        atom, joined and wrapped. */
    method TranslateGameStateToPDDL(s: Snapshot) returns (r: string)
      requires Valid() && Translatable(info, gameElementVars, enumerate, s)
      ensures r == State(s)
    {
      var predicates := GroundSnapshot(info, Plain, gameElementVars, enumerate, s);
      predicates := predicates + connectionSet;
      r := "(" + Join(" ", predicates) + ")";
    }

    /** act, for the action drawn and the state the forward model predicts
        after it: one state is recorded, a second one when the predicted
        state ends the game, and then one action. The debug line reads the
        first resource type, so the game must have one. */
    method Act(s: Snapshot, action: GameAction, next: Snapshot) returns (chosen: GameAction)
      requires Valid() && Translatable(info, gameElementVars, enumerate, s)
      requires |s.resources| > 0
      requires next.isGameOver ==> Translatable(info, gameElementVars, enumerate, next)
      requires s.orientation == next.orientation && action != ActionUse ==> s.blockSize > 0
      modifies trace
      ensures chosen == action
      ensures trace.gamePredicates ==
        old(trace.gamePredicates) + [State(s)] + (if next.isGameOver then [State(next)] else [])
      ensures trace.executedActions == old(trace.executedActions) + [RandomAgentActionAtom(info, s, action, next)]
    {
      var predicates := TranslateGameStateToPDDL(s);
      trace.AddState(predicates);
      var instantiatedAction: string;
      var actionStr := RandomAgentActionName(action);
      var numResources := GetNumberResources(s.resources);
      if s.orientation != next.orientation {
        actionStr := Replace(actionStr, "MOVE", "TURN");
        instantiatedAction := AvatarAction(info, actionStr);
      } else if action == ActionUse {
        instantiatedAction := AvatarAction(info, actionStr);
      } else {
        var x := JavaDiv(s.avatarPosition.x, s.blockSize);
        var y := JavaDiv(s.avatarPosition.y, s.blockSize);
        var nextResources := GetNumberResources(next.resources);
        var isResourcePicked := numResources != nextResources;
        instantiatedAction := MoveAction(info, actionStr, x, y, isResourcePicked);
      }
      if next.isGameOver {
        var nextTurnPredicates := TranslateGameStateToPDDL(next);
        trace.AddState(nextTurnPredicates);
      }
      trace.AddAction(instantiatedAction);
      chosen := action;
    }

    /** A state string has no lower-case letter. */
    lemma StateIsUpper(s: Snapshot)
      requires Valid() && ReadableGrid(s.elements)
      ensures NoLower(State(s))
    {
      SnapshotAtomsUpper(info, Plain, gameElementVars, enumerate, s);
      ConnectionSetUpper(info, width, height);
      RenderUpper(SnapshotAtoms(info, Plain, gameElementVars, enumerate, s), connectionSet);
    }

    /** The connections come last: with element atoms present, the state is
        their list, one space, then the connection list. */
    lemma ConnectionsLast(s: Snapshot)
      requires ReadableGrid(s.elements)
      requires SnapshotAtoms(info, Plain, gameElementVars, enumerate, s) != [] && connectionSet != []
      ensures State(s) ==
        "(" + Join(" ", SnapshotAtoms(info, Plain, gameElementVars, enumerate, s)) + " " + Join(" ", connectionSet) + ")"
    {
      RenderParts(SnapshotAtoms(info, Plain, gameElementVars, enumerate, s), connectionSet);
    }
  }

  /** A RandomAgent's action atoms: a turn or USE lists only the avatar, a
      move the avatar and the current and target cells, in the objects of
      the state atoms; a move names the cell one step in its direction. */
  lemma RandomAgentActionObjects(info: GameInformation, s: Snapshot, action: GameAction, next: Snapshot)
    requires s.orientation == next.orientation && action != ActionUse ==> s.blockSize > 0
    ensures s.orientation != next.orientation || action == ActionUse ==>
      RandomAgentActionAtom(info, s, action, next) ==
        Render([Norm(if s.orientation != next.orientation then Replace(RandomAgentActionName(action), "MOVE", "TURN")
                     else "USE"),
                Upper(AvatarInstance(info))])
    ensures s.orientation == next.orientation && action != ActionUse ==>
      var x, y := JavaDiv(s.avatarPosition.x, s.blockSize), JavaDiv(s.avatarPosition.y, s.blockSize);
      var d := Delta(DirectionOf(action));
      var name := Norm(RandomAgentActionName(action));
      RandomAgentActionAtom(info, s, action, next) ==
        Render([if |AllObservations(s.resources)| != |AllObservations(next.resources)|
                then name + "_PICK_RESOURCE" else name,
                Upper(AvatarInstance(info)), Upper(CellObject(info, x, y)), Upper(CellObject(info, x + d.x, y + d.y))])
  {
    var actionStr := RandomAgentActionName(action);
    if s.orientation != next.orientation {
      AvatarActionObjects(info, Replace(actionStr, "MOVE", "TURN"));
    } else if action == ActionUse {
      AvatarActionObjects(info, actionStr);
    } else {
      var x, y := JavaDiv(s.avatarPosition.x, s.blockSize), JavaDiv(s.avatarPosition.y, s.blockSize);
      var picked := |AllObservations(s.resources)| != |AllObservations(next.resources)|;
      MoveActionObjects(info, actionStr, x, y, picked);
      MoveDisplacementOfNames(action);
    }
  }
}
