/** The data the agents work on: the game description loaded from the
    configuration file, orientations and directions, the per-turn game
    snapshot, and the names of grounded objects. */
module Domain {
  import opened Options
  import opened Text

  /** The four grid directions (the Position enum of the configuration). */
  datatype Position = Up | Down | Left | Right

  /** An integer vector: an avatar orientation or a cell displacement. */
  datatype Vec = Vec(x: int, y: int)

  /** The game description (GameInformation): placeholder names carry their
      leading '?'. A missing orientation table is the null field of the
      source. */
  datatype GameInformation = GameInformation(
    avatarVariable: string,
    cellVariable: string,
    variablesTypes: map<string, string>,
    gameElementsCorrespondence: map<string, seq<string>>,
    pickedResourcesPredicates: map<string, string>,
    orientationCorrespondence: Option<map<Position, string>>,
    connections: map<Position, string>)

  /** The type of a variable as String.format prints it: a variable with no
      declared type prints as "null". */
  function TypeOf(info: GameInformation, v: string): string {
    if v in info.variablesTypes then info.variablesTypes[v] else "null"
  }

  /** The facing direction of an orientation vector, tested in the order
      x = 1, x = -1, y = 1, y = -1; None when no component is a unit. */
  function Facing(o: Vec): Option<Position> {
    if o.x == 1 then Some(Right)
    else if o.x == -1 then Some(Left)
    else if o.y == 1 then Some(Down)
    else if o.y == -1 then Some(Up)
    else None
  }

  /** The displacement of one step in a direction (y grows downwards). */
  function Delta(d: Position): Vec {
    match d
    case Up => Vec(0, -1)
    case Down => Vec(0, 1)
    case Left => Vec(-1, 0)
    case Right => Vec(1, 0)
  }

  /** An orientation pointing along one axis. */
  predicate IsAxisUnit(o: Vec) {
    (o.x == 0 && (o.y == 1 || o.y == -1)) || (o.y == 0 && (o.x == 1 || o.x == -1))
  }

  /** Facing recovers the direction of every step vector ... */
  lemma FacingOfDelta(d: Position)
    ensures Facing(Delta(d)) == Some(d)
  {
    match d
    case Up =>
    case Down =>
    case Left =>
    case Right =>
  }

  /** ... and the step vector of the facing of an axis-unit orientation is
      that orientation. */
  lemma DeltaOfFacing(o: Vec)
    requires IsAxisUnit(o)
    ensures Facing(o).Some? && Delta(Facing(o).value) == o
  {
  }

  /** The cell faced from (x, y): the if-chain of the use and movement
      actions, which moves one step along the first unit component. */
  function FacedCell(o: Vec, x: int, y: int): Vec {
    if o.x == 1 then Vec(x + 1, y)
    else if o.x == -1 then Vec(x - 1, y)
    else if o.y == 1 then Vec(x, y + 1)
    else if o.y == -1 then Vec(x, y - 1)
    else Vec(x, y)
  }

  /** The faced cell is one step in the facing direction, and it is the cell
      itself when the orientation has no unit component. */
  lemma FacedCellIsStep(o: Vec, x: int, y: int)
    ensures Facing(o).Some? ==>
      FacedCell(o, x, y) == Vec(x + Delta(Facing(o).value).x, y + Delta(Facing(o).value).y)
    ensures Facing(o).None? ==> FacedCell(o, x, y) == Vec(x, y)
    ensures IsAxisUnit(o) ==> FacedCell(o, x, y) == Vec(x + o.x, y + o.y)
  {
  }

  /** Java's int division, which truncates toward zero (the cell index of a
      pixel coordinate). */
  function JavaDiv(a: int, b: int): (r: int)
    requires b > 0
    ensures a >= 0 ==> r * b <= a < (r + 1) * b
    ensures a < 0 ==> (r - 1) * b < a <= r * b
  {
    if a >= 0 then a / b else -((-a) / b)
  }

  // ---------------------------------------------------------------------
  // Grounded objects

  /** A placeholder as the variable pattern finds it: '?' and letters. */
  predicate IsVariableToken(v: string) {
    |v| >= 2 && v[0] == '?' && forall i :: 1 <= i < |v| ==> IsLetter(v[i])
  }

  /** The avatar object: "avatar - type" with '?' removed, no coordinates. */
  function AvatarInstance(info: GameInformation): string {
    StripMarker(info.avatarVariable + " - " + TypeOf(info, info.avatarVariable))
  }

  /** The object of variable v bound to cell (x, y): "v_x_y - type" with '?'
      removed. */
  function CellInstance(info: GameInformation, v: string, x: int, y: int): string {
    StripMarker(v + "_" + IntToString(x) + "_" + IntToString(y) + " - " + TypeOf(info, v))
  }

  /** A cell object of the configured cell variable. */
  function CellObject(info: GameInformation, x: int, y: int): string {
    CellInstance(info, info.cellVariable, x, y)
  }

  lemma StripMarkerOfToken(v: string)
    requires IsVariableToken(v)
    ensures StripMarker(v) == v[1..] && '_' !in v[1..]
  {
    assert v == "?" + v[1..];
    StripMarkerConcat("?", v[1..]);
    assert StripMarker("?") == "";
    assert forall i :: 0 <= i < |v[1..]| ==> IsLetter(v[1..][i]);
    StripMarkerAbsent(v[1..]);
  }

  /** The separators between the parts of an object name carry no marker. */
  lemma SeparatorsUnmarked(X: string, Y: string)
    requires '?' !in X && '?' !in Y
    ensures '?' !in "_" + X + "_" + Y + " - "
  {
    var M := "_" + X + "_" + Y + " - ";
    forall i | 0 <= i < |M| ensures M[i] != '?' {
      if 1 <= i < 1 + |X| {
        assert M[i] == X[i - 1];
      } else if 2 + |X| <= i < 2 + |X| + |Y| {
        assert M[i] == Y[i - 2 - |X|];
      }
    }
  }

  lemma Regroup(M: string, X: string, Y: string, S: string)
    requires M == "_" + X + "_" + Y + " - "
    ensures M + S == ['_'] + (X + (['_'] + (Y + ([' '] + ("- " + S)))))
  {
  }

  /** The name "v_X_Y - T" with its markers removed. */
  lemma NameShape(v: string, X: string, Y: string, T: string)
    requires IsVariableToken(v) && '?' !in X && '?' !in Y
    ensures StripMarker(v + "_" + X + "_" + Y + " - " + T) ==
      v[1..] + (['_'] + (X + (['_'] + (Y + ([' '] + ("- " + StripMarker(T)))))))
  {
    var M := "_" + X + "_" + Y + " - ";
    SeparatorsUnmarked(X, Y);
    StripMarkerAbsent(M);
    StripMarkerOfToken(v);
    assert v + "_" + X + "_" + Y + " - " + T == (v + M) + T;
    StripMarkerConcat(v + M, T);
    StripMarkerConcat(v, M);
    Regroup(M, X, Y, StripMarker(T));
  }

  lemma CellInstanceShape(info: GameInformation, v: string, x: int, y: int)
    requires IsVariableToken(v)
    ensures CellInstance(info, v, x, y) ==
      v[1..] + (['_'] + (IntToString(x) + (['_'] + (IntToString(y) + ([' '] + ("- " + StripMarker(TypeOf(info, v))))))))
  {
    IntToStringNoSeparators(x);
    IntToStringNoSeparators(y);
    NameShape(v, IntToString(x), IntToString(y), TypeOf(info, v));
  }

  /** Object names are unique per (variable, x, y): two grounded cell objects
      of placeholder variables are equal only when they bind the same
      variable to the same cell. */
  lemma CellInstanceInjective(info: GameInformation, v1: string, x1: int, y1: int, v2: string, x2: int, y2: int)
    requires IsVariableToken(v1) && IsVariableToken(v2)
    requires CellInstance(info, v1, x1, y1) == CellInstance(info, v2, x2, y2)
    ensures v1 == v2 && x1 == x2 && y1 == y2
  {
    CellInstanceShape(info, v1, x1, y1);
    CellInstanceShape(info, v2, x2, y2);
    StripMarkerOfToken(v1);
    StripMarkerOfToken(v2);
    var X1, Y1, X2, Y2 := IntToString(x1), IntToString(y1), IntToString(x2), IntToString(y2);
    var T1, T2 := "- " + StripMarker(TypeOf(info, v1)), "- " + StripMarker(TypeOf(info, v2));
    IntToStringNoSeparators(x1);
    IntToStringNoSeparators(y1);
    IntToStringNoSeparators(x2);
    IntToStringNoSeparators(y2);
    SplitAtSeparator(v1[1..], X1 + (['_'] + (Y1 + ([' '] + T1))), v2[1..], X2 + (['_'] + (Y2 + ([' '] + T2))), '_');
    SplitAtSeparator(X1, Y1 + ([' '] + T1), X2, Y2 + ([' '] + T2), '_');
    SplitAtSeparator(Y1, T1, Y2, T2, ' ');
    IntToStringInjective(x1, x2);
    IntToStringInjective(y1, y2);
    assert v1 == [v1[0]] + v1[1..] && v2 == [v2[0]] + v2[1..];
  }

  // ---------------------------------------------------------------------
  // Snapshots

  /** The game actions an agent can choose (getAvailableActions()). */
  datatype GameAction = ActionUp | ActionDown | ActionLeft | ActionRight | ActionUse

  /** A resource observation: the sprite key of the resource and its pixel
      position. */
  datatype ResourceObservation = ResourceObservation(sprite: string, position: Vec)

  /** The squared distance between two pixel positions (Observation.sqDist
      relative to the position the observations are requested for). */
  function SqDist(p: Vec, q: Vec): int {
    (p.x - q.x) * (p.x - q.x) + (p.y - q.y) * (p.y - q.y)
  }

  lemma SqDistZero(p: Vec, q: Vec)
    ensures SqDist(p, q) >= 0
    ensures SqDist(p, q) == 0 <==> p == q
  {
    var dx, dy := p.x - q.x, p.y - q.y;
    assert dx * dx >= 0 && dy * dy >= 0;
    if dx != 0 {
      assert dx * dx > 0;
    }
    if dy != 0 {
      assert dy * dy > 0;
    }
  }

  /** The resource observations, list after list. */
  function AllObservations(resources: seq<seq<ResourceObservation>>): seq<ResourceObservation>
    decreases |resources|
  {
    if resources == [] then []
    else AllObservations(resources[..|resources| - 1]) + resources[|resources| - 1]
  }

  lemma AllObservationsSnoc(resources: seq<seq<ResourceObservation>>, l: seq<ResourceObservation>)
    ensures AllObservations(resources + [l]) == AllObservations(resources) + l
  {
    assert (resources + [l])[..|resources|] == resources;
  }

  /** An observation is listed exactly when it is in one of the lists. */
  lemma {:induction false} AllObservationsMembers(resources: seq<seq<ResourceObservation>>, o: ResourceObservation)
    ensures o in AllObservations(resources) <==> exists i :: 0 <= i < |resources| && o in resources[i]
    decreases |resources|
  {
    if resources != [] {
      var rs := resources[..|resources| - 1];
      AllObservationsMembers(rs, o);
      assert forall i :: 0 <= i < |rs| ==> rs[i] == resources[i];
    }
  }

  /** What the agent reads from one StateObservation. elements[x][y] lists
      the sprite keys of the observations in cell (x, y); resources lists,
      per resource type, the resource observations; positions are integer
      pixels. */
  datatype Snapshot = Snapshot(
    elements: seq<seq<seq<string>>>,
    orientation: Vec,
    avatarPosition: Vec,
    blockSize: int,
    resources: seq<seq<ResourceObservation>>,
    isGameOver: bool)

  /** A W x H grid with W >= 1 (the source reads gameMap[0].length). */
  ghost predicate IsGrid(g: seq<seq<seq<string>>>) {
    |g| >= 1 && forall x :: 0 <= x < |g| ==> |g[x]| == |g[0]|
  }

  function Width(g: seq<seq<seq<string>>>): nat {
    |g|
  }

  function Height(g: seq<seq<seq<string>>>): nat
    requires |g| >= 1
  {
    |g[0]|
  }
}
