/** Action grounding: the atoms recorded for executed actions. Every atom
    is a format string filled with the action name and typed objects, with
    '?' removed and upper-cased; cells are named "cellVar_x_y" from integer
    cell coordinates that may leave the map. */
module Actions {
  import opened Options
  import opened Seqs
  import opened Text
  import opened Domain

  // ---------------------------------------------------------------------
  // Names and typed objects

  /** The action names of RandomAgent's table. */
  function RandomAgentActionName(a: GameAction): string {
    match a
    case ActionUp => "MOVE_UP"
    case ActionDown => "MOVE_DOWN"
    case ActionLeft => "MOVE_LEFT"
    case ActionRight => "MOVE_RIGHT"
    case ActionUse => "USE"
  }

  /** The action names of AbstractRandomAgent's table. */
  function AbstractActionName(a: GameAction): string {
    match a
    case ActionUp => "ACTION_UP"
    case ActionDown => "ACTION_DOWN"
    case ActionLeft => "ACTION_LEFT"
    case ActionRight => "ACTION_RIGHT"
    case ActionUse => "USE"
  }

  /** "%s - %s" for the avatar variable and its type. */
  function AvatarTerm(info: GameInformation): string {
    info.avatarVariable + " - " + TypeOf(info, info.avatarVariable)
  }

  /** "%s_%d_%d": variable v placed at (x, y). */
  function CellName(v: string, x: int, y: int): string {
    v + "_" + IntToString(x) + "_" + IntToString(y)
  }

  /** "%s - %s" for variable v placed at (x, y) and the type of v. */
  function ObjectTerm(info: GameInformation, v: string, x: int, y: int): string {
    CellName(v, x, y) + " - " + TypeOf(info, v)
  }

  function CellTerm(info: GameInformation, x: int, y: int): string {
    ObjectTerm(info, info.cellVariable, x, y)
  }

  /** Typed objects in action atoms are normalised to the very objects state
      atoms mention: the avatar object, and the cell-bound object of a
      variable. */
  lemma TermsNormalise(info: GameInformation, v: string, x: int, y: int)
    ensures Norm(AvatarTerm(info)) == Upper(AvatarInstance(info))
    ensures Norm(ObjectTerm(info, v, x, y)) == Upper(CellInstance(info, v, x, y))
    ensures Norm(CellTerm(info, x, y)) == Upper(CellObject(info, x, y))
  {
  }

  // ---------------------------------------------------------------------
  // Displacements

  /** The switch of createMoveAction: the target cell of a move name; any
      other name leaves the cell unchanged. */
  function MoveDisplacement(actionStr: string): (d: Vec)
    ensures d == Vec(0, 0) || IsAxisUnit(d)
  {
    if actionStr == "MOVE_UP" then Vec(0, -1)
    else if actionStr == "MOVE_DOWN" then Vec(0, 1)
    else if actionStr == "MOVE_RIGHT" then Vec(1, 0)
    else if actionStr == "MOVE_LEFT" then Vec(-1, 0)
    else Vec(0, 0)
  }

  function MoveTarget(actionStr: string, x: int, y: int): Vec {
    Vec(x + MoveDisplacement(actionStr).x, y + MoveDisplacement(actionStr).y)
  }

  /** The direction of a movement action. */
  function DirectionOf(a: GameAction): Position
    requires a != ActionUse
  {
    match a
    case ActionUp => Up
    case ActionDown => Down
    case ActionLeft => Left
    case ActionRight => Right
  }

  /** With RandomAgent's names a movement action targets the neighbour in
      its direction (the cell its connection atom links to); USE and every
      name of AbstractRandomAgent's table leave the cell unchanged, so the
      switch never matches those names. */
  lemma MoveDisplacementOfNames(a: GameAction)
    ensures a != ActionUse ==> MoveDisplacement(RandomAgentActionName(a)) == Delta(DirectionOf(a))
    ensures a == ActionUse ==> MoveDisplacement(RandomAgentActionName(a)) == Vec(0, 0)
    ensures MoveDisplacement(AbstractActionName(a)) == Vec(0, 0)
  {
  }

  // ---------------------------------------------------------------------
  // The atoms

  /** createAvatarAction: "(%s %s - %s)" of the name and the avatar. */
  function AvatarAction(info: GameInformation, actionStr: string): string {
    Norm("(" + actionStr + " " + AvatarTerm(info) + ")")
  }

  /** "(%s %s - %s %s - %s %s - %s)": the name, the avatar, the current cell
      and the destination cell. */
  function CellAction(info: GameInformation, name: string, x: int, y: int, dest: Vec): string {
    Norm("(" + name + " " + AvatarTerm(info) + " " + CellTerm(info, x, y) + " " + CellTerm(info, dest.x, dest.y) + ")")
  }

  /** The name of a move, with "_PICK_RESOURCE" appended when a resource is
      picked. */
  function PickName(actionStr: string, picked: bool): string {
    if picked then actionStr + "_PICK_RESOURCE" else actionStr
  }

  /** RandomAgent.createMoveAction, and the move of the cell-based variant
      when no resource is picked. */
  function MoveAction(info: GameInformation, actionStr: string, x: int, y: int, picked: bool): string {
    CellAction(info, PickName(actionStr, picked), x, y, MoveTarget(actionStr, x, y))
  }

  /** CellBasedRandomAgent.createUseAction: the destination is the faced
      cell. */
  function UseAction(info: GameInformation, actionStr: string, x: int, y: int, o: Vec): string {
    CellAction(info, actionStr, x, y, FacedCell(o, x, y))
  }

  /** CellBasedRandomAgent.createMovementAction: the destination is the
      faced cell when the orientation does not change, the current cell
      otherwise. */
  function MovementAction(info: GameInformation, actionStr: string, x: int, y: int, o: Vec,
                          isSameOrientation: bool): string {
    CellAction(info, actionStr, x, y, if isSameOrientation then FacedCell(o, x, y) else Vec(x, y))
  }

  /** The cell-based pick move: "(%s %s - %s %s - %s %s - %s %s - %s)" with
      the resource object placed at the destination. */
  function CellPickAction(info: GameInformation, actionStr: string, x: int, y: int, resourceVar: string): string {
    var n := MoveTarget(actionStr, x, y);
    Norm("(" + PickName(actionStr, true) + " " + AvatarTerm(info) + " " + CellTerm(info, x, y) + " " +
         CellTerm(info, n.x, n.y) + " " + ObjectTerm(info, resourceVar, n.x, n.y) + ")")
  }

  /** The numeric pick move: "(%s %s - %s  %s - %s)", with two spaces before
      the resource object. */
  function NumericPickAction(info: GameInformation, actionStr: string, x: int, y: int, resourceVar: string): string {
    var n := MoveTarget(actionStr, x, y);
    Norm("(" + PickName(actionStr, true) + " " + AvatarTerm(info) + "  " + ObjectTerm(info, resourceVar, n.x, n.y) + ")")
  }

  // ---------------------------------------------------------------------
  // What the atoms say

  lemma PickSuffixNormal()
    ensures Norm("_PICK_RESOURCE") == "_PICK_RESOURCE"
  {
    var s := "_PICK_RESOURCE";
    assert '?' !in s;
    forall i | 0 <= i < |s| ensures !('a' <= s[i] <= 'z') {
      assert s[i] in "_PICKRESOU";
    }
    StripMarkerAbsent(s);
    UpperNoLower(s);
  }

  lemma PickNameNorm(actionStr: string)
    ensures Norm(actionStr + "_PICK_RESOURCE") == Norm(actionStr) + "_PICK_RESOURCE"
  {
    NormConcat(actionStr, "_PICK_RESOURCE");
    PickSuffixNormal();
  }

  /** Formatting steps for the atom lemmas below: a Java format string of
      space-separated parts is the Render of those parts. */
  lemma Render2(a: string, b: string)
    ensures "(" + a + " " + b + ")" == Render([a, b])
  {
    JoinSnoc(" ", [a], b);
    assert [a] + [b] == [a, b];
  }

  lemma Render4(a: string, b: string, c: string, d: string)
    ensures "(" + a + " " + b + " " + c + " " + d + ")" == Render([a, b, c, d])
  {
    JoinSnoc(" ", [a], b);
    assert [a] + [b] == [a, b];
    JoinSnoc(" ", [a, b], c);
    assert [a, b] + [c] == [a, b, c];
    JoinSnoc(" ", [a, b, c], d);
    assert [a, b, c] + [d] == [a, b, c, d];
  }

  lemma Render5(a: string, b: string, c: string, d: string, e: string)
    ensures "(" + a + " " + b + " " + c + " " + d + " " + e + ")" == Render([a, b, c, d, e])
  {
    JoinSnoc(" ", [a], b);
    assert [a] + [b] == [a, b];
    JoinSnoc(" ", [a, b], c);
    assert [a, b] + [c] == [a, b, c];
    JoinSnoc(" ", [a, b, c], d);
    assert [a, b, c] + [d] == [a, b, c, d];
    JoinSnoc(" ", [a, b, c, d], e);
    assert [a, b, c, d] + [e] == [a, b, c, d, e];
  }

  /** An avatar-only atom lists the normalised name and the avatar object. */
  lemma AvatarActionObjects(info: GameInformation, actionStr: string)
    ensures AvatarAction(info, actionStr) == Render([Norm(actionStr), Upper(AvatarInstance(info))])
  {
    Render2(actionStr, AvatarTerm(info));
    NormRender([actionStr, AvatarTerm(info)]);
    assert NormAll([actionStr, AvatarTerm(info)]) == [Norm(actionStr), Norm(AvatarTerm(info))];
  }

  /** A cell action lists the normalised name, then the avatar, the current
      cell and the destination exactly as state atoms name them: the name
      is never rewritten beyond '?' removal and upper-casing. */
  lemma CellActionObjects(info: GameInformation, name: string, x: int, y: int, dest: Vec)
    ensures CellAction(info, name, x, y, dest) ==
      Render([Norm(name), Upper(AvatarInstance(info)), Upper(CellObject(info, x, y)), Upper(CellObject(info, dest.x, dest.y))])
  {
    var parts := [name, AvatarTerm(info), CellTerm(info, x, y), CellTerm(info, dest.x, dest.y)];
    Render4(parts[0], parts[1], parts[2], parts[3]);
    NormRender(parts);
    assert NormAll(parts) == [Norm(parts[0]), Norm(parts[1]), Norm(parts[2]), Norm(parts[3])];
  }

  /** The move atom names the target one step away in the name's direction
      and carries "_PICK_RESOURCE" exactly when a resource is picked. */
  lemma MoveActionObjects(info: GameInformation, actionStr: string, x: int, y: int, picked: bool)
    ensures var n := MoveTarget(actionStr, x, y);
      MoveAction(info, actionStr, x, y, picked) ==
      Render([if picked then Norm(actionStr) + "_PICK_RESOURCE" else Norm(actionStr),
              Upper(AvatarInstance(info)), Upper(CellObject(info, x, y)), Upper(CellObject(info, n.x, n.y))])
    ensures var n := MoveTarget(actionStr, x, y);
      (actionStr == "MOVE_UP" ==> n == Vec(x, y - 1)) && (actionStr == "MOVE_DOWN" ==> n == Vec(x, y + 1)) &&
      (actionStr == "MOVE_LEFT" ==> n == Vec(x - 1, y)) && (actionStr == "MOVE_RIGHT" ==> n == Vec(x + 1, y))
  {
    CellActionObjects(info, PickName(actionStr, picked), x, y, MoveTarget(actionStr, x, y));
    if picked {
      PickNameNorm(actionStr);
    }
  }

  /** The use atom's destination is one step along the orientation's first
      unit component (the cell itself when there is none). */
  lemma UseActionObjects(info: GameInformation, actionStr: string, x: int, y: int, o: Vec)
    ensures var f := FacedCell(o, x, y);
      UseAction(info, actionStr, x, y, o) ==
      Render([Norm(actionStr), Upper(AvatarInstance(info)), Upper(CellObject(info, x, y)), Upper(CellObject(info, f.x, f.y))])
    ensures IsAxisUnit(o) ==> FacedCell(o, x, y) == Vec(x + o.x, y + o.y)
    ensures Facing(o).None? ==> FacedCell(o, x, y) == Vec(x, y)
  {
    CellActionObjects(info, actionStr, x, y, FacedCell(o, x, y));
    FacedCellIsStep(o, x, y);
  }

  /** A movement that changes the orientation stays in its cell; otherwise
      it is a use atom with the same name. */
  lemma MovementActionObjects(info: GameInformation, actionStr: string, x: int, y: int, o: Vec, same: bool)
    ensures !same ==> (MovementAction(info, actionStr, x, y, o, same) ==
      Render([Norm(actionStr), Upper(AvatarInstance(info)), Upper(CellObject(info, x, y)), Upper(CellObject(info, x, y))]))
    ensures same ==> MovementAction(info, actionStr, x, y, o, same) == UseAction(info, actionStr, x, y, o)
  {
    CellActionObjects(info, actionStr, x, y, Vec(x, y));
  }

  /** Normalising a five-part atom normalises each part. */
  lemma Render5Norm(a: string, b: string, c: string, d: string, e: string)
    ensures Norm("(" + a + " " + b + " " + c + " " + d + " " + e + ")") ==
      Render([Norm(a), Norm(b), Norm(c), Norm(d), Norm(e)])
  {
    var parts := [a, b, c, d, e];
    calc {
      Norm("(" + a + " " + b + " " + c + " " + d + " " + e + ")");
      { Render5(a, b, c, d, e); }
      Norm(Render(parts));
      { NormRender(parts); }
      Render(NormAll(parts));
      { assert NormAll(parts) == [Norm(a), Norm(b), Norm(c), Norm(d), Norm(e)]; }
      Render([Norm(a), Norm(b), Norm(c), Norm(d), Norm(e)]);
    }
  }

  /** The cell-based pick atom is the move atom's list with the resource
      object, placed at the target, appended. */
  lemma CellPickActionObjects(info: GameInformation, actionStr: string, x: int, y: int, resourceVar: string)
    ensures var n := MoveTarget(actionStr, x, y);
      CellPickAction(info, actionStr, x, y, resourceVar) ==
      Render([Norm(actionStr) + "_PICK_RESOURCE", Upper(AvatarInstance(info)), Upper(CellObject(info, x, y)),
              Upper(CellObject(info, n.x, n.y)), Upper(CellInstance(info, resourceVar, n.x, n.y))])
  {
    var n := MoveTarget(actionStr, x, y);
    Render5Norm(PickName(actionStr, true), AvatarTerm(info), CellTerm(info, x, y),
                CellTerm(info, n.x, n.y), ObjectTerm(info, resourceVar, n.x, n.y));
    PickNameNorm(actionStr);
    TermsNormalise(info, resourceVar, x, y);
    TermsNormalise(info, resourceVar, n.x, n.y);
  }

  /** The double space of the numeric pick format is an empty part. */
  lemma DoubleSpace(a: string, b: string, c: string)
    ensures "(" + a + " " + b + "  " + c + ")" == Render([a, b, "", c])
  {
    Render4(a, b, "", c);
    assert "  " == " " + "" + " ";
  }

  /** The numeric pick atom: the name, the avatar, an empty part (the double
      space) and the resource object at the target. */
  lemma NumericPickActionObjects(info: GameInformation, actionStr: string, x: int, y: int, resourceVar: string)
    ensures var n := MoveTarget(actionStr, x, y);
      NumericPickAction(info, actionStr, x, y, resourceVar) ==
      Render([Norm(actionStr) + "_PICK_RESOURCE", Upper(AvatarInstance(info)), "", Upper(CellInstance(info, resourceVar, n.x, n.y))])
  {
    var n := MoveTarget(actionStr, x, y);
    var p0, p1, p3 := PickName(actionStr, true), AvatarTerm(info), ObjectTerm(info, resourceVar, n.x, n.y);
    var parts := [p0, p1, "", p3];
    DoubleSpace(p0, p1, p3);
    NormRender(parts);
    assert NormAll(parts) == [Norm(p0), Norm(p1), Norm(""), Norm(p3)];
    assert Norm("") == "";
    PickNameNorm(actionStr);
    TermsNormalise(info, resourceVar, n.x, n.y);
  }

  // ---------------------------------------------------------------------
  // Identifying the picked resource

  /** The last observation at squared distance 0 from p. */
  function LastAt(s: seq<ResourceObservation>, p: Vec): Option<ResourceObservation>
    decreases |s|
  {
    if s == [] then None
    else if SqDist(s[|s| - 1].position, p) == 0 then Some(s[|s| - 1])
    else LastAt(s[..|s| - 1], p)
  }

  lemma LastAtSnoc(s: seq<ResourceObservation>, o: ResourceObservation, p: Vec)
    ensures LastAt(s + [o], p) == if SqDist(o.position, p) == 0 then Some(o) else LastAt(s, p)
  {
    assert (s + [o])[..|s|] == s;
  }

  /** LastAt finds no observation exactly when none lies on p. */
  lemma {:induction false} LastAtNone(s: seq<ResourceObservation>, p: Vec)
    ensures LastAt(s, p).None? <==> forall i :: 0 <= i < |s| ==> s[i].position != p
    decreases |s|
  {
    if s != [] {
      var s', o := s[..|s| - 1], s[|s| - 1];
      LastAtNone(s', p);
      SqDistZero(o.position, p);
      assert forall i :: 0 <= i < |s'| ==> s'[i] == s[i];
    }
  }

  /** LastAt finds the observation lying on p that comes last. */
  lemma {:induction false} LastAtIsLast(s: seq<ResourceObservation>, p: Vec)
    requires LastAt(s, p).Some?
    ensures exists i :: (0 <= i < |s| && s[i] == LastAt(s, p).value &&
      s[i].position == p && forall j :: i < j < |s| ==> s[j].position != p)
    decreases |s|
  {
    var s', o := s[..|s| - 1], s[|s| - 1];
    SqDistZero(o.position, p);
    if o.position == p {
      assert s[|s| - 1] == LastAt(s, p).value;
    } else {
      LastAtIsLast(s', p);
      var i :| 0 <= i < |s'| && s'[i] == LastAt(s', p).value && s'[i].position == p &&
        forall j :: i < j < |s'| ==> s'[j].position != p;
      assert s[i] == s'[i];
      assert forall j :: i < j < |s| - 1 ==> s[j] == s'[j];
    }
  }

  /** The last variable of the sprite that is not the cell variable, or ""
      when there is none. */
  function ResourceVariable(info: GameInformation, vars: seq<string>): string
    decreases |vars|
  {
    if vars == [] then ""
    else if vars[|vars| - 1] != info.cellVariable then vars[|vars| - 1]
    else ResourceVariable(info, vars[..|vars| - 1])
  }

  lemma {:induction false} ResourceVariableIsLast(info: GameInformation, vars: seq<string>)
    ensures (forall i :: 0 <= i < |vars| ==> vars[i] == info.cellVariable) ==> ResourceVariable(info, vars) == ""
    ensures (exists i :: 0 <= i < |vars| && vars[i] != info.cellVariable) ==>
      exists i :: 0 <= i < |vars| && vars[i] == ResourceVariable(info, vars) && vars[i] != info.cellVariable &&
        forall j :: i < j < |vars| ==> vars[j] == info.cellVariable
    decreases |vars|
  {
    if vars != [] {
      var vs := vars[..|vars| - 1];
      ResourceVariableIsLast(info, vs);
      assert forall i :: 0 <= i < |vs| ==> vs[i] == vars[i];
      if vars[|vars| - 1] == info.cellVariable && exists i :: 0 <= i < |vars| && vars[i] != info.cellVariable {
        var k :| 0 <= k < |vars| && vars[k] != info.cellVariable;
        assert k < |vs| && vs[k] != info.cellVariable;
        var i :| 0 <= i < |vs| && vs[i] == ResourceVariable(info, vs) && vs[i] != info.cellVariable &&
          forall j :: i < j < |vs| ==> vs[j] == info.cellVariable;
        assert vars[i] == ResourceVariable(info, vars);
      }
    }
  }

  /** The loops that look for the resource observation: every list, every
      observation, the last one at squared distance 0 kept. */
  method FindResourceObservation(resources: seq<seq<ResourceObservation>>, resourcePosition: Vec)
    returns (resourceObservation: Option<ResourceObservation>)
    ensures resourceObservation == LastAt(AllObservations(resources), resourcePosition)
  {
    resourceObservation := None;
    var i := 0;
    while i < |resources|
      invariant i <= |resources|
      invariant resourceObservation == LastAt(AllObservations(resources[..i]), resourcePosition)
    {
      ghost var done := AllObservations(resources[..i]);
      var j := 0;
      assert done + resources[i][..j] == done;
      while j < |resources[i]|
        invariant j <= |resources[i]|
        invariant resourceObservation == LastAt(done + resources[i][..j], resourcePosition)
      {
        var obs := resources[i][j];
        if SqDist(obs.position, resourcePosition) == 0 {
          resourceObservation := Some(obs);
        }
        assert resources[i][..j + 1] == resources[i][..j] + [obs];
        assert done + resources[i][..j + 1] == (done + resources[i][..j]) + [obs];
        LastAtSnoc(done + resources[i][..j], obs, resourcePosition);
        j := j + 1;
      }
      assert resources[i][..j] == resources[i];
      assert resources[..i + 1] == resources[..i] + [resources[i]];
      AllObservationsSnoc(resources[..i], resources[i]);
      i := i + 1;
    }
    assert resources[..i] == resources;
  }

  /** The loop over the sprite's variables that keeps the last one other
      than the cell variable. */
  method FindResourceVariable(info: GameInformation, vars: seq<string>) returns (resourceObject: string)
    ensures resourceObject == ResourceVariable(info, vars)
  {
    resourceObject := "";
    var i := 0;
    while i < |vars|
      invariant i <= |vars|
      invariant resourceObject == ResourceVariable(info, vars[..i])
    {
      if vars[i] != info.cellVariable {
        resourceObject := vars[i];
      }
      assert vars[..i + 1][..i] == vars[..i];
      i := i + 1;
    }
    assert vars[..i] == vars;
  }

  /** The pixel position of cell (x, y). */
  function PixelOf(c: Vec, blockSize: int): Vec {
    Vec(c.x * blockSize, c.y * blockSize)
  }

  /** A pick can be grounded: some resource observation lies on the target
      cell, and its sprite key has variables. */
  predicate PickResolves(elementVars: map<string, seq<string>>, actionStr: string, x: int, y: int,
                         blockSize: int, resources: seq<seq<ResourceObservation>>) {
    var o := LastAt(AllObservations(resources), PixelOf(MoveTarget(actionStr, x, y), blockSize));
    o.Some? && o.value.sprite in elementVars
  }

  /** The variable of the picked resource. */
  function PickedVariable(info: GameInformation, elementVars: map<string, seq<string>>, actionStr: string,
                          x: int, y: int, blockSize: int, resources: seq<seq<ResourceObservation>>): string
    requires PickResolves(elementVars, actionStr, x, y, blockSize, resources)
  {
    var o := LastAt(AllObservations(resources), PixelOf(MoveTarget(actionStr, x, y), blockSize));
    ResourceVariable(info, elementVars[o.value.sprite])
  }

  /** CellBasedRandomAgent.createMoveAction. The observations are those
      the state reports for the target's pixel position. */
  method CreateCellMoveAction(info: GameInformation, elementVars: map<string, seq<string>>, actionStr: string,
                              x: int, y: int, isResourcePicked: bool, blockSize: int,
                              resources: seq<seq<ResourceObservation>>)
    returns (instantiatedAction: string)
    requires isResourcePicked ==> PickResolves(elementVars, actionStr, x, y, blockSize, resources)
    ensures !isResourcePicked ==> instantiatedAction == MoveAction(info, actionStr, x, y, false)
    ensures isResourcePicked ==>
      (instantiatedAction ==
        CellPickAction(info, actionStr, x, y, PickedVariable(info, elementVars, actionStr, x, y, blockSize, resources)))
  {
    var next := MoveTarget(actionStr, x, y);
    if isResourcePicked {
      var resourcePosition := Vec(next.x * blockSize, next.y * blockSize);
      var resourceObservation := FindResourceObservation(resources, resourcePosition);
      var gameElement := resourceObservation.value.sprite;
      var resourceObject := FindResourceVariable(info, elementVars[gameElement]);
      instantiatedAction := CellPickAction(info, actionStr, x, y, resourceObject);
    } else {
      instantiatedAction := MoveAction(info, actionStr, x, y, false);
    }
  }

  /** NumericRandomAgent.createMoveAction: without a pick only the avatar is
      listed (the target is computed but unused). */
  method CreateNumericMoveAction(info: GameInformation, elementVars: map<string, seq<string>>, actionStr: string,
                                 x: int, y: int, isResourcePicked: bool, blockSize: int,
                                 resources: seq<seq<ResourceObservation>>)
    returns (instantiatedAction: string)
    requires isResourcePicked ==> PickResolves(elementVars, actionStr, x, y, blockSize, resources)
    ensures !isResourcePicked ==> instantiatedAction == AvatarAction(info, actionStr)
    ensures isResourcePicked ==>
      (instantiatedAction ==
        NumericPickAction(info, actionStr, x, y, PickedVariable(info, elementVars, actionStr, x, y, blockSize, resources)))
  {
    var next := MoveTarget(actionStr, x, y);
    if isResourcePicked {
      var resourcePosition := Vec(next.x * blockSize, next.y * blockSize);
      var resourceObservation := FindResourceObservation(resources, resourcePosition);
      var gameElement := resourceObservation.value.sprite;
      var resourceObject := FindResourceVariable(info, elementVars[gameElement]);
      instantiatedAction := NumericPickAction(info, actionStr, x, y, resourceObject);
    } else {
      instantiatedAction := Norm("(" + actionStr + " " + AvatarTerm(info) + ")");
    }
  }

  // ---------------------------------------------------------------------
  // The atom each act records

  /** RandomAgent.act: an orientation change is checked first and gives the
      avatar atom of the name with "MOVE" turned into "TURN"; then USE gives
      the avatar atom; any other action is a move, picking a resource when
      the total number of resource observations changes. */
  function RandomAgentActionAtom(info: GameInformation, s: Snapshot, action: GameAction, next: Snapshot): string
    requires s.orientation == next.orientation && action != ActionUse ==> s.blockSize > 0
  {
    var actionStr := RandomAgentActionName(action);
    if s.orientation != next.orientation then AvatarAction(info, Replace(actionStr, "MOVE", "TURN"))
    else if action == ActionUse then AvatarAction(info, actionStr)
    else MoveAction(info, actionStr, JavaDiv(s.avatarPosition.x, s.blockSize), JavaDiv(s.avatarPosition.y, s.blockSize),
                    |AllObservations(s.resources)| != |AllObservations(next.resources)|)
  }

  /** AbstractRandomAgent.act: USE is checked first and gives the use atom
      at the faced cell; any other action gives the movement atom, which
      steps only when the orientation stays the same. */
  function AbstractActionAtom(info: GameInformation, s: Snapshot, action: GameAction, next: Snapshot): string
    requires s.blockSize > 0
  {
    var actionStr := AbstractActionName(action);
    var x, y := JavaDiv(s.avatarPosition.x, s.blockSize), JavaDiv(s.avatarPosition.y, s.blockSize);
    if action == ActionUse then UseAction(info, actionStr, x, y, s.orientation)
    else MovementAction(info, actionStr, x, y, s.orientation, s.orientation == next.orientation)
  }

  /** The turn names: "MOVE_d" becomes "TURN_d", and "USE" and the
      "ACTION_d" names are left alone. */
  lemma TurnNames(a: GameAction)
    ensures Replace(RandomAgentActionName(a), "MOVE", "TURN") == TurnName(a)
    ensures Replace(AbstractActionName(a), "MOVE", "TURN") == AbstractActionName(a)
  {
    RandomNamesTurn(a);
    AbstractNamesKept(a);
  }

  /** RandomAgent's action names with MOVE replaced by TURN. */
  function TurnName(a: GameAction): string {
    match a
    case ActionUp => "TURN_UP"
    case ActionDown => "TURN_DOWN"
    case ActionLeft => "TURN_LEFT"
    case ActionRight => "TURN_RIGHT"
    case ActionUse => "USE"
  }

  lemma RandomNamesTurn(a: GameAction)
    ensures Replace(RandomAgentActionName(a), "MOVE", "TURN") == TurnName(a)
  {
    match a
    case ActionUp =>
      MoveToTurn("_UP");
      assert "MOVE" + "_UP" == "MOVE_UP" && "TURN" + "_UP" == "TURN_UP";
    case ActionDown =>
      MoveToTurn("_DOWN");
      assert "MOVE" + "_DOWN" == "MOVE_DOWN" && "TURN" + "_DOWN" == "TURN_DOWN";
    case ActionLeft =>
      MoveToTurn("_LEFT");
      assert "MOVE" + "_LEFT" == "MOVE_LEFT" && "TURN" + "_LEFT" == "TURN_LEFT";
    case ActionRight =>
      MoveToTurn("_RIGHT");
      assert "MOVE" + "_RIGHT" == "MOVE_RIGHT" && "TURN" + "_RIGHT" == "TURN_RIGHT";
    case ActionUse =>
      assert !Contains("SE", "MOVE");
      assert !Contains("USE", "MOVE");
      ReplaceAbsent("USE", "MOVE", "TURN");
  }

  /** The abstract agent's names hold no M, so the replacement keeps them. */
  lemma AbstractNamesKept(a: GameAction)
    ensures Replace(AbstractActionName(a), "MOVE", "TURN") == AbstractActionName(a)
  {
    var n := AbstractActionName(a);
    forall i | 0 <= i < |n| ensures n[i] != 'M' {
      assert n[i] in "ACTIONUPDWLEFRGHS_";
    }
    RestAbsent(n);
    ReplaceAbsent(n, "MOVE", "TURN");
  }

  /** "MOVE" followed by a direction suffix becomes "TURN" and the suffix. */
  lemma MoveToTurn(rest: string)
    requires |rest| > 0 && rest[0] == '_'
    requires forall i :: 0 <= i < |rest| ==> rest[i] != 'M'
    ensures Replace("MOVE" + rest, "MOVE", "TURN") == "TURN" + rest
  {
    var n := "MOVE" + rest;
    assert n[..4] == "MOVE" && n[4..] == rest;
    RestAbsent(rest);
    ReplaceAbsent(rest, "MOVE", "TURN");
  }

  /** A string without the letter M does not contain "MOVE". */
  lemma RestAbsent(rest: string)
    requires forall i :: 0 <= i < |rest| ==> rest[i] != 'M'
    ensures !Contains(rest, "MOVE")
  {
    ContainsIff(rest, "MOVE");
    forall i | 0 <= i <= |rest| - 4
      ensures !OccursAt(rest, "MOVE", i)
    {
      assert rest[i..i + 4][0] == rest[i];
    }
  }

  /** The two dispatch orders disagree: a USE during which the orientation
      changes is recorded by RandomAgent as the avatar-only "USE" atom, and
      by the abstract agent as the use atom at the faced cell. */
  lemma DispatchOrders(info: GameInformation, s: Snapshot, next: Snapshot)
    requires s.blockSize > 0 && s.orientation != next.orientation
    ensures RandomAgentActionAtom(info, s, ActionUse, next) == AvatarAction(info, "USE")
    ensures AbstractActionAtom(info, s, ActionUse, next) ==
      UseAction(info, "USE", JavaDiv(s.avatarPosition.x, s.blockSize), JavaDiv(s.avatarPosition.y, s.blockSize), s.orientation)
  {
    TurnNames(ActionUse);
  }
}
