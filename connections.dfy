/** Connection generation: the insertion-ordered, duplicate-free set of
    adjacency atoms between the cells of a W x H map, shared by RandomAgent
    and CellBasedRandomAgent. */
module Connections {
  import opened Seqs
  import opened Text
  import opened Domain
  import opened Adjacency

  /** The placeholder a direction's template uses for the neighbour cell. */
  function NeighbourPlaceholder(d: Position): string {
    match d
    case Up => "?u"
    case Down => "?d"
    case Left => "?l"
    case Right => "?r"
  }

  /** The template of a direction; the generator only reads templates that
      exist (see ConnectionsCover). */
  function Template(info: GameInformation, d: Position): string {
    if d in info.connections then info.connections[d] else ""
  }

  /** The connection atom of direction d at cell (x, y): the direction's
      template with "?c" bound to the cell and the neighbour placeholder
      bound to the neighbour, then upper-cased. */
  function ConnectionAtom(info: GameInformation, d: Position, x: int, y: int): string {
    var n := Neighbour(d, x, y);
    Upper(Replace(Replace(Template(info, d), "?c", CellObject(info, x, y)),
                  NeighbourPlaceholder(d), CellObject(info, n.x, n.y)))
  }

  // ---------------------------------------------------------------------
  // The atoms inserted

  /** The atom of a link. */
  function LinkAtom(info: GameInformation, l: Link): string {
    ConnectionAtom(info, l.d, l.x, l.y)
  }

  function AtomOf(info: GameInformation): Link -> string {
    l => LinkAtom(info, l)
  }

  /** The connection set of a W x H map: the atoms of the visited links,
      each kept at its first insertion. */
  function ConnectionSet(info: GameInformation, W: nat, H: nat): seq<string> {
    Dedup(Map(AtomOf(info), AllLinks(W, H)))
  }

  /** c is the atom of a (cell, direction) pair whose neighbour is in
      bounds. */
  ghost predicate IsConnection(info: GameInformation, W: nat, H: nat, c: string) {
    exists l :: InBounds(W, H, l) && c == LinkAtom(info, l)
  }

  lemma ConnectionSetSound(info: GameInformation, W: nat, H: nat, c: string)
    requires c in ConnectionSet(info, W, H)
    ensures IsConnection(info, W, H, c)
  {
    var atoms := Map(AtomOf(info), AllLinks(W, H));
    DedupElems(atoms);
    assert c in Elems(atoms);
    var i :| 0 <= i < |atoms| && atoms[i] == c;
    AllLinksMembers(W, H, AllLinks(W, H)[i]);
  }

  lemma ConnectionSetComplete(info: GameInformation, W: nat, H: nat, l: Link)
    requires InBounds(W, H, l)
    ensures LinkAtom(info, l) in ConnectionSet(info, W, H)
  {
    var ls := AllLinks(W, H);
    var atoms := Map(AtomOf(info), ls);
    DedupElems(atoms);
    AllLinksMembers(W, H, l);
    var i :| 0 <= i < |ls| && ls[i] == l;
    assert atoms[i] in Elems(atoms);
  }

  /** The stored set holds no duplicates, and an atom is in it exactly when
      it is the atom of a (cell, direction) pair whose neighbour is in
      bounds. */
  lemma ConnectionSetMembers(info: GameInformation, W: nat, H: nat, c: string)
    ensures NoDup(ConnectionSet(info, W, H))
    ensures c in ConnectionSet(info, W, H) <==> IsConnection(info, W, H, c)
  {
    DedupElems(Map(AtomOf(info), AllLinks(W, H)));
    if c in ConnectionSet(info, W, H) {
      ConnectionSetSound(info, W, H, c);
    }
    if IsConnection(info, W, H, c) {
      var l :| InBounds(W, H, l) && c == LinkAtom(info, l);
      ConnectionSetComplete(info, W, H, l);
    }
  }

  /** Every connection atom is upper case. */
  lemma ConnectionSetUpper(info: GameInformation, W: nat, H: nat)
    ensures forall c :: c in ConnectionSet(info, W, H) ==> NoLower(c)
  {
    forall c | c in ConnectionSet(info, W, H)
      ensures NoLower(c)
    {
      ConnectionSetSound(info, W, H, c);
      var l :| InBounds(W, H, l) && c == LinkAtom(info, l);
      var n := Neighbour(l.d, l.x, l.y);
      UpperIsUpper(Replace(Replace(Template(info, l.d), "?c", CellObject(info, l.x, l.y)),
                           NeighbourPlaceholder(l.d), CellObject(info, n.x, n.y)));
    }
  }

  /** The set keeps first-insertion order: of two stored atoms, the earlier
      one was first produced by a link visited earlier. */
  lemma ConnectionSetOrder(info: GameInformation, W: nat, H: nat, i: int, j: int)
    requires 0 <= i < j < |ConnectionSet(info, W, H)|
    ensures var atoms, cs := Map(AtomOf(info), AllLinks(W, H)), ConnectionSet(info, W, H);
      cs[i] in atoms && cs[j] in atoms &&
      Before(AllLinks(W, H)[FirstIndex(atoms, cs[i])], AllLinks(W, H)[FirstIndex(atoms, cs[j])])
  {
    var ls := AllLinks(W, H);
    var atoms := Map(AtomOf(info), ls);
    DedupFirstOrder(atoms);
    AllLinksOrdered(W, H);
    assert Dedup(atoms)[i] in atoms && Dedup(atoms)[j] in atoms;
    var p, q := FirstIndex(atoms, Dedup(atoms)[i]), FirstIndex(atoms, Dedup(atoms)[j]);
    assert p < q;
    assert Before(ls[p], ls[q]);
  }

  /** The set holds at most one atom per insertion, so at most
      4WH - 2W - 2H atoms, and exactly that many when distinct in-bounds
      links give distinct atoms (templates that name both cells). */
  lemma ConnectionSetCount(info: GameInformation, W: nat, H: nat)
    requires W >= 1 && H >= 1
    ensures |ConnectionSet(info, W, H)| <= 4 * W * H - 2 * W - 2 * H
    ensures (forall l, l' :: InBounds(W, H, l) && InBounds(W, H, l') && l != l' ==>
               LinkAtom(info, l) != LinkAtom(info, l')) ==>
      |ConnectionSet(info, W, H)| == 4 * W * H - 2 * W - 2 * H
  {
    var links := AllLinks(W, H);
    var atoms := Map(AtomOf(info), links);
    AllLinksCount(W, H);
    DedupLength(atoms);
    if forall l, l' :: InBounds(W, H, l) && InBounds(W, H, l') && l != l' ==> LinkAtom(info, l) != LinkAtom(info, l') {
      AllLinksOrdered(W, H);
      forall i, j | 0 <= i < j < |atoms|
        ensures atoms[i] != atoms[j]
      {
        assert Before(links[i], links[j]);
        AllLinksMembers(W, H, links[i]);
        AllLinksMembers(W, H, links[j]);
      }
      DedupOfNoDup(atoms);
    }
  }

  /** The source reads the template of every direction it inserts: those of
      UP and DOWN once the map has two rows, those of LEFT and RIGHT once it
      has two columns. */
  predicate ConnectionsCover(info: GameInformation, W: int, H: int) {
    (H >= 2 ==> Up in info.connections && Down in info.connections) &&
    (W >= 2 && H >= 1 ==> Left in info.connections && Right in info.connections)
  }

  /** Making a test: the atom of l is added when the test succeeds. */
  lemma InsertTested(info: GameInformation, d: seq<string>, done: seq<Link>, b: bool, l: Link)
    ensures InsertAll(d, Map(AtomOf(info), done + Step(b, l))) ==
      if b then Insert(InsertAll(d, Map(AtomOf(info), done)), LinkAtom(info, l))
      else InsertAll(d, Map(AtomOf(info), done))
  {
    MapConcat(AtomOf(info), done, Step(b, l));
    if b {
      InsertAllSnoc(d, Map(AtomOf(info), done), LinkAtom(info, l));
    } else {
      assert Map(AtomOf(info), done) + Map(AtomOf(info), Step(b, l)) == Map(AtomOf(info), done);
    }
  }

  /** One of the four blocks of the loop body: the direction's template with
      "?c" bound to the current cell and the neighbour placeholder bound to
      the neighbour, upper-cased and added to the set. */
  method AddConnection(info: GameInformation, d: Position, x: int, y: int, currentCell: string,
                       connections: seq<string>) returns (r: seq<string>)
    requires d in info.connections && currentCell == CellObject(info, x, y)
    ensures r == Insert(connections, LinkAtom(info, Link(x, y, d)))
  {
    var n := Neighbour(d, x, y);
    var connection := info.connections[d];
    connection := Replace(connection, "?c", currentCell);
    connection := Replace(connection, NeighbourPlaceholder(d), CellObject(info, n.x, n.y));
    r := Insert(connections, Upper(connection));
  }

  /** One test of the loop body: when the bounds test of direction d
      succeeds at (x, y), the block of d runs. The ghost parameters name the
      set before the cell and the links already tested. */
  method TestDirection(info: GameInformation, W: nat, H: nat, x: nat, y: nat, d: Position,
                       currentCell: string, r: seq<string>, ghost before: seq<string>, ghost done: seq<Link>)
    returns (r': seq<string>)
    requires InGrid(W, H, x, y) && ConnectionsCover(info, W, H) && currentCell == CellObject(info, x, y)
    requires r == InsertAll(before, Map(AtomOf(info), done))
    ensures r' == InsertAll(before, Map(AtomOf(info), done + Step(Open(W, H, x, y, d), Link(x, y, d))))
  {
    if Open(W, H, x, y, d) {
      r' := AddConnection(info, d, x, y, currentCell, r);
    } else {
      r' := r;
    }
    InsertTested(info, before, done, Open(W, H, x, y, d), Link(x, y, d));
  }

  /** The four tests made at cell (x, y) (UP iff y - 1 >= 0, DOWN iff
      y + 1 < H, LEFT iff x - 1 >= 0, RIGHT iff x + 1 < W), each adding its
      atom to the set. */
  method ConnectCell(info: GameInformation, W: nat, H: nat, x: nat, y: nat, connections: seq<string>)
    returns (r: seq<string>)
    requires InGrid(W, H, x, y) && ConnectionsCover(info, W, H)
    ensures r == InsertAll(connections, Map(AtomOf(info), CellLinks(W, H, x, y)))
  {
    var currentCell := CellObject(info, x, y);
    ghost var s0: seq<Link> := [];
    assert connections == InsertAll(connections, Map(AtomOf(info), s0));
    r := TestDirection(info, W, H, x, y, Up, currentCell, connections, connections, s0);
    ghost var s1 := Step(Open(W, H, x, y, Up), Link(x, y, Up));
    assert s0 + s1 == s1;
    r := TestDirection(info, W, H, x, y, Down, currentCell, r, connections, s1);
    ghost var s2 := s1 + Step(Open(W, H, x, y, Down), Link(x, y, Down));
    r := TestDirection(info, W, H, x, y, Left, currentCell, r, connections, s2);
    ghost var s3 := s2 + Step(Open(W, H, x, y, Left), Link(x, y, Left));
    r := TestDirection(info, W, H, x, y, Right, currentCell, r, connections, s3);
    assert s3 + Step(Open(W, H, x, y, Right), Link(x, y, Right)) == CellLinks(W, H, x, y);
  }

  /** The inner loop: the cells of row y, left to right. */
  method ConnectRow(info: GameInformation, W: nat, H: nat, y: nat, connections: seq<string>)
    returns (r: seq<string>)
    requires y < H && ConnectionsCover(info, W, H)
    ensures r == InsertAll(connections, Map(AtomOf(info), RowLinks(W, H, y, W)))
  {
    r := connections;
    var x := 0;
    while x < W
      invariant 0 <= x <= W
      invariant r == InsertAll(connections, Map(AtomOf(info), RowLinks(W, H, y, x)))
    {
      ghost var done := RowLinks(W, H, y, x);
      ghost var cell := CellLinks(W, H, x, y);
      r := ConnectCell(info, W, H, x, y, r);
      MapConcat(AtomOf(info), done, cell);
      InsertAllConcat(connections, Map(AtomOf(info), done), Map(AtomOf(info), cell));
      RowLinksSnoc(W, H, y, x);
      x := x + 1;
    }
  }

  /** generateConnectionPredicates: the LinkedHashSet filled row by row (y
      outer, x inner), UP, DOWN, LEFT, RIGHT within a cell. The source reads
      the width from gameMap[0], so the map has a column. */
  method GenerateConnectionPredicates(info: GameInformation, W: nat, H: nat) returns (connections: seq<string>)
    requires W >= 1
    requires ConnectionsCover(info, W, H)
    ensures connections == ConnectionSet(info, W, H)
  {
    connections := [];
    var y := 0;
    while y < H
      invariant 0 <= y <= H
      invariant connections == Dedup(Map(AtomOf(info), GridLinks(W, H, y)))
    {
      ghost var done := GridLinks(W, H, y);
      ghost var row := RowLinks(W, H, y, W);
      connections := ConnectRow(info, W, H, y, connections);
      MapConcat(AtomOf(info), done, row);
      DedupConcat(Map(AtomOf(info), done), Map(AtomOf(info), row));
      GridLinksSnoc(W, H, y);
      y := y + 1;
    }
  }
}
