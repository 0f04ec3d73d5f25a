/** getGameElementsMatrix: the observation grid turned into a matrix of sets
    of sprite keys, a cell without observations holding "background". */
module ElementsMatrix {
  import opened Seqs
  import opened Domain

  /** The source reads the height from the first column and then every cell
      of that height, so each column must be at least that long. */
  predicate ReadableGrid(elements: seq<seq<seq<string>>>) {
    |elements| >= 1 && forall x :: 0 <= x < |elements| ==> |elements[x]| >= |elements[0]|
  }

  /** The set stored for a cell with the sprite keys obs. */
  function CellSet(obs: seq<string>): set<string> {
    if |obs| > 0 then Elems(obs) else {"background"}
  }

  /** No cell of the matrix is empty: a cell without observations holds
      exactly "background", any other cell exactly its observations' keys. */
  lemma CellSetContents(obs: seq<string>)
    ensures CellSet(obs) != {}
    ensures obs == [] ==> CellSet(obs) == {"background"}
    ensures obs != [] ==> forall k :: k in CellSet(obs) <==> exists i :: 0 <= i < |obs| && obs[i] == k
  {
    if obs != [] {
      assert obs[0] in CellSet(obs);
    }
  }

  /** The loops of getGameElementsMatrix: y outer, x inner, each cell's set
      filled from its observations. */
  method GetGameElementsMatrix(elements: seq<seq<seq<string>>>) returns (gameStringMap: array2<set<string>>)
    requires ReadableGrid(elements)
    ensures fresh(gameStringMap)
    ensures gameStringMap.Length0 == |elements| && gameStringMap.Length1 == |elements[0]|
    ensures forall x, y :: 0 <= x < gameStringMap.Length0 && 0 <= y < gameStringMap.Length1 ==>
      gameStringMap[x, y] == CellSet(elements[x][y])
  {
    var xMax, yMax := |elements|, |elements[0]|;
    gameStringMap := new set<string>[xMax, yMax];
    var y := 0;
    while y < yMax
      invariant y <= yMax
      invariant forall x', y' :: 0 <= x' < xMax && 0 <= y' < y ==> gameStringMap[x', y'] == CellSet(elements[x'][y'])
    {
      var x := 0;
      while x < xMax
        invariant x <= xMax
        invariant forall x', y' :: 0 <= x' < xMax && 0 <= y' < y ==> gameStringMap[x', y'] == CellSet(elements[x'][y'])
        invariant forall x' :: 0 <= x' < x ==> gameStringMap[x', y] == CellSet(elements[x'][y])
      {
        var cell := CellKeys(elements[x][y]);
        gameStringMap[x, y] := cell;
        x := x + 1;
      }
      y := y + 1;
    }
  }

  /** The set of one cell: each observation's key added, or "background". */
  method CellKeys(obs: seq<string>) returns (cell: set<string>)
    ensures cell == CellSet(obs)
  {
    cell := {};
    if |obs| > 0 {
      var i := 0;
      while i < |obs|
        invariant i <= |obs|
        invariant cell == Elems(obs[..i])
      {
        assert obs[..i + 1] == obs[..i] + [obs[i]];
        cell := cell + {obs[i]};
        i := i + 1;
      }
      assert obs[..i] == obs;
    } else {
      cell := cell + {"background"};
    }
  }

  /** The map the translation walks: every cell's set in the iteration order
      enumerate gives it. */
  function EnumeratedGrid(enumerate: set<string> -> seq<string>, elements: seq<seq<seq<string>>>): (g: seq<seq<seq<string>>>)
    requires ReadableGrid(elements)
    ensures IsGrid(g) && Width(g) == |elements| && Height(g) == |elements[0]|
    ensures forall x, y :: 0 <= x < |elements| && 0 <= y < |elements[0]| ==> g[x][y] == enumerate(CellSet(elements[x][y]))
  {
    seq(|elements|, x requires 0 <= x < |elements| =>
      seq(|elements[0]|, y requires 0 <= y < |elements[0]| => enumerate(CellSet(elements[x][y]))))
  }

  lemma OnlyElement(s: seq<string>, e: string)
    requires NoDup(s) && Elems(s) == {e}
    ensures s == [e]
  {
    NoDupCard(s);
    assert s[0] in Elems(s);
  }

  /** The enumeration lists each element of set s once, and nothing else. */
  ghost predicate EnumeratesSet(enumerate: set<string> -> seq<string>, s: set<string>) {
    NoDup(enumerate(s)) && Elems(enumerate(s)) == s
  }

  /** An enumeration lists each element of every set once. */
  ghost predicate Enumerates(enumerate: set<string> -> seq<string>) {
    forall s :: EnumeratesSet(enumerate, s)
  }

  /** With a faithful enumeration, a cell lists its observations' keys once
      each, or "background" alone. */
  lemma EnumeratedCell(enumerate: set<string> -> seq<string>, elements: seq<seq<seq<string>>>, x: int, y: int, k: string)
    requires ReadableGrid(elements) && Enumerates(enumerate)
    requires 0 <= x < |elements| && 0 <= y < |elements[0]|
    ensures NoDup(EnumeratedGrid(enumerate, elements)[x][y])
    ensures elements[x][y] == [] ==> EnumeratedGrid(enumerate, elements)[x][y] == ["background"]
    ensures elements[x][y] != [] ==> (k in EnumeratedGrid(enumerate, elements)[x][y] <==> k in elements[x][y])
  {
    var cell := EnumeratedGrid(enumerate, elements)[x][y];
    assert cell == enumerate(CellSet(elements[x][y]));
    assert EnumeratesSet(enumerate, CellSet(elements[x][y]));
    assert Elems(cell) == CellSet(elements[x][y]);
    if elements[x][y] == [] {
      assert Elems(cell) == {"background"};
      assert |cell| >= 1 by {
        assert "background" in Elems(cell);
      }
      OnlyElement(cell, "background");
    } else {
      assert k in cell <==> k in Elems(cell);
    }
  }
}
