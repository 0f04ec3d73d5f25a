/** The part of translateGameStateToPDDL the agents share: the element
    matrix of a snapshot walked in enumeration order and grounded, and the
    rendering of the atom list as one "(ATOM ATOM ...)" string. */
module States {
  import opened Seqs
  import opened Text
  import opened Domain
  import opened Grounding
  import opened ElementsMatrix

  /** A snapshot the translation can ground: its grid can be read, and the
      avatar's orientation can be looked up whenever the walk of the
      enumerated grid binds the avatar variable with a table present. */
  predicate Translatable(info: GameInformation, elementVars: map<string, seq<string>>,
                         enumerate: set<string> -> seq<string>, s: Snapshot) {
    ReadableGrid(s.elements) &&
    (GridNeedsFacing(info, elementVars, EnumeratedGrid(enumerate, s.elements)) ==> OrientationResolves(info, s.orientation))
  }

  /** The element atoms of a snapshot, the sprite keys of each cell taken in
      the order enumerate gives the cell's set. */
  function SnapshotAtoms(info: GameInformation, style: Style, elementVars: map<string, seq<string>>,
                         enumerate: set<string> -> seq<string>, s: Snapshot): seq<string>
    requires ReadableGrid(s.elements)
  {
    ElementAtoms(info, style, elementVars, EnumeratedGrid(enumerate, s.elements), s.orientation)
  }

  /** The element matrix is built, each cell's set enumerated, and the map
      grounded. */
  method GroundSnapshot(info: GameInformation, style: Style, elementVars: map<string, seq<string>>,
                        enumerate: set<string> -> seq<string>, s: Snapshot)
    returns (predicates: seq<string>)
    requires VarsCover(info, elementVars) && Translatable(info, elementVars, enumerate, s)
    ensures predicates == SnapshotAtoms(info, style, elementVars, enumerate, s)
  {
    var gameMap := GetGameElementsMatrix(s.elements);
    var g := seq(gameMap.Length0, x requires 0 <= x < gameMap.Length0 reads gameMap =>
               seq(gameMap.Length1, y requires 0 <= y < gameMap.Length1 reads gameMap => enumerate(gameMap[x, y])));
    assert g == EnumeratedGrid(enumerate, s.elements) by {
      var e := EnumeratedGrid(enumerate, s.elements);
      assert |g| == |e|;
      forall x | 0 <= x < |g|
        ensures g[x] == e[x]
      {
        assert |g[x]| == |e[x]|;
      }
    }
    predicates := GroundElements(info, style, elementVars, g, s.orientation);
  }

  /** Every element atom of a snapshot is upper case. */
  lemma SnapshotAtomsUpper(info: GameInformation, style: Style, elementVars: map<string, seq<string>>,
                           enumerate: set<string> -> seq<string>, s: Snapshot)
    requires ReadableGrid(s.elements)
    ensures forall a :: a in SnapshotAtoms(info, style, elementVars, enumerate, s) ==> NoLower(a)
  {
    var g := EnumeratedGrid(enumerate, s.elements);
    forall a | a in SnapshotAtoms(info, style, elementVars, enumerate, s)
      ensures NoLower(a)
    {
      ElementAtomsUpper(info, style, elementVars, g, s.orientation, a);
    }
  }

  /** Two lists of upper-case atoms render as an upper-case state. */
  lemma RenderUpper(a: seq<string>, b: seq<string>)
    requires forall x :: x in a ==> NoLower(x)
    requires forall x :: x in b ==> NoLower(x)
    ensures NoLower(Render(a + b))
  {
    var all := a + b;
    forall i | 0 <= i < |all|
      ensures NoLower(all[i])
    {
      assert all[i] in all;
    }
    RenderNoLower(all);
  }

  /** A state string lists the atoms in order, separated by single spaces
      and wrapped in parentheses; when it is made of two non-empty parts, the
      second part comes last, after one space. An empty list gives "()". */
  lemma RenderParts(a: seq<string>, b: seq<string>)
    ensures Render([]) == "()"
    ensures a != [] && b != [] ==> Render(a + b) == "(" + Join(" ", a) + " " + Join(" ", b) + ")"
    ensures a == [] ==> Render(a + b) == Render(b)
    ensures b == [] ==> Render(a + b) == Render(a)
  {
    assert a == [] ==> a + b == b;
    assert b == [] ==> a + b == a;
    if a != [] && b != [] {
      JoinAppend(" ", a, b);
    }
  }
}
