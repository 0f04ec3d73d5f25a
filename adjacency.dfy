/** The (cell, direction) pairs the connection generator visits on a W x H
    map, and the order in which it visits them. */
module Adjacency {
  import opened Seqs
  import opened Domain

  /** A directed adjacency: cell (x, y) and the direction of its neighbour. */
  datatype Link = Link(x: int, y: int, d: Position)

  /** The neighbour of (x, y) in direction d. */
  function Neighbour(d: Position, x: int, y: int): Vec {
    Vec(x + Delta(d).x, y + Delta(d).y)
  }

  predicate InGrid(W: int, H: int, x: int, y: int) {
    0 <= x < W && 0 <= y < H
  }

  /** Both ends of the link are cells of the map. */
  predicate InBounds(W: int, H: int, l: Link) {
    InGrid(W, H, l.x, l.y) && InGrid(W, H, Neighbour(l.d, l.x, l.y).x, Neighbour(l.d, l.x, l.y).y)
  }

  /** The bounds test made before inserting direction d at cell (x, y):
      UP iff y - 1 >= 0, DOWN iff y + 1 < H, LEFT iff x - 1 >= 0, RIGHT iff
      x + 1 < W. */
  predicate Open(W: int, H: int, x: int, y: int, d: Position) {
    match d
    case Up => y - 1 >= 0
    case Down => y + 1 < H
    case Left => x - 1 >= 0
    case Right => x + 1 < W
  }

  /** The link of one test, when the test succeeds. */
  function Step(b: bool, l: Link): seq<Link> {
    if b then [l] else []
  }

  /** The links inserted at one cell: the four tests in the order UP, DOWN,
      LEFT, RIGHT. */
  function CellLinks(W: int, H: int, x: int, y: int): seq<Link> {
    Step(Open(W, H, x, y, Up), Link(x, y, Up)) + Step(Open(W, H, x, y, Down), Link(x, y, Down)) +
    Step(Open(W, H, x, y, Left), Link(x, y, Left)) + Step(Open(W, H, x, y, Right), Link(x, y, Right))
  }

  /** The cells of row y, as a family indexed by x. */
  function RowCells(W: int, H: int, y: int): nat -> seq<Link> {
    (x: nat) => CellLinks(W, H, x, y)
  }

  /** The links of cells x < n of row y (the inner loop). */
  function RowLinks(W: int, H: int, y: int, n: nat): seq<Link> {
    Flatten(RowCells(W, H, y), n)
  }

  /** The rows of the map, as a family indexed by y. */
  function GridRows(W: nat, H: nat): nat -> seq<Link> {
    (y: nat) => RowLinks(W, H, y, W)
  }

  /** The links of rows y < m (the outer loop). */
  function GridLinks(W: nat, H: nat, m: nat): seq<Link> {
    Flatten(GridRows(W, H), m)
  }

  /** Every link the generator visits, in visiting order. */
  function AllLinks(W: nat, H: nat): seq<Link> {
    GridLinks(W, H, H)
  }

  /** One more cell of the row, and one more row of the map. */
  lemma RowLinksSnoc(W: int, H: int, y: int, n: nat)
    ensures RowLinks(W, H, y, n + 1) == RowLinks(W, H, y, n) + CellLinks(W, H, n, y)
  {
  }

  lemma GridLinksSnoc(W: nat, H: nat, m: nat)
    ensures GridLinks(W, H, m + 1) == GridLinks(W, H, m) + RowLinks(W, H, m, W)
  {
  }

  // ---------------------------------------------------------------------
  // Which links are visited

  /** At a cell of the map, a test succeeds exactly when the neighbour is a
      cell of the map too. */
  lemma OpenInBounds(W: int, H: int, x: int, y: int, d: Position)
    requires InGrid(W, H, x, y)
    ensures Open(W, H, x, y, d) <==> InGrid(W, H, Neighbour(d, x, y).x, Neighbour(d, x, y).y)
  {
  }

  lemma CellLinksMembers(W: int, H: int, x: int, y: int, l: Link)
    requires InGrid(W, H, x, y)
    ensures l in CellLinks(W, H, x, y) <==> l.x == x && l.y == y && InBounds(W, H, l)
  {
    OpenInBounds(W, H, x, y, l.d);
  }

  lemma RowLinksMembers(W: int, H: int, y: int, n: nat, l: Link)
    requires 0 <= y < H && n <= W
    ensures l in RowLinks(W, H, y, n) <==> l.y == y && l.x < n && InBounds(W, H, l)
  {
    FlattenMembers(RowCells(W, H, y), n, l);
    forall k | 0 <= k < n
      ensures l in RowCells(W, H, y)(k) <==> l.x == k && l.y == y && InBounds(W, H, l)
    {
      CellLinksMembers(W, H, k, y, l);
    }
    if l.y == y && l.x < n && InBounds(W, H, l) {
      assert l in RowCells(W, H, y)(l.x);
    }
  }

  lemma GridLinksMembers(W: nat, H: nat, m: nat, l: Link)
    requires m <= H
    ensures l in GridLinks(W, H, m) <==> l.y < m && InBounds(W, H, l)
  {
    FlattenMembers(GridRows(W, H), m, l);
    forall k | 0 <= k < m
      ensures l in GridRows(W, H)(k) <==> l.y == k && l.x < W && InBounds(W, H, l)
    {
      RowLinksMembers(W, H, k, W, l);
    }
    if l.y < m && InBounds(W, H, l) {
      assert l in GridRows(W, H)(l.y);
    }
  }

  /** A link is visited exactly when both of its cells are inside the map. */
  lemma AllLinksMembers(W: nat, H: nat, l: Link)
    ensures l in AllLinks(W, H) <==> InBounds(W, H, l)
  {
    GridLinksMembers(W, H, H, l);
  }

  // ---------------------------------------------------------------------
  // How many links are visited

  /** The tests UP and DOWN that succeed in row y. */
  function Vertical(H: int, y: int): int {
    (if y >= 1 then 1 else 0) + (if y + 1 < H then 1 else 0)
  }

  lemma CellLinksCount(W: int, H: int, x: int, y: int)
    ensures |CellLinks(W, H, x, y)| == Vertical(H, y) + (if x >= 1 then 1 else 0) + (if x + 1 < W then 1 else 0)
  {
  }

  /** The length of a row whose cell k has v vertical links, a LEFT link
      unless k is first and a RIGHT link unless k is last. */
  lemma {:induction false} RowFamilyCount(f: nat -> seq<Link>, W: int, v: int, n: nat)
    requires 1 <= W && n <= W
    requires forall k :: 0 <= k < n ==> |f(k)| == v + (if k >= 1 then 1 else 0) + (if k + 1 < W then 1 else 0)
    ensures |Flatten(f, n)| == n * v + (if n >= 1 then n - 1 else 0) + (if n < W then n else W - 1)
  {
    if n > 0 {
      RowFamilyCount(f, W, v, n - 1);
      assert n * v == (n - 1) * v + v;
    }
  }

  lemma RowLinksCount(W: int, H: int, y: int, n: nat)
    requires 1 <= W && n <= W
    ensures |RowLinks(W, H, y, n)| ==
      n * Vertical(H, y) + (if n >= 1 then n - 1 else 0) + (if n < W then n else W - 1)
  {
    forall k | 0 <= k < n
      ensures |RowCells(W, H, y)(k)| == Vertical(H, y) + (if k >= 1 then 1 else 0) + (if k + 1 < W then 1 else 0)
    {
      CellLinksCount(W, H, k, y);
    }
    RowFamilyCount(RowCells(W, H, y), W, Vertical(H, y), n);
  }

  /** The tests UP and DOWN that succeed in rows y < m. */
  function Verticals(H: int, m: int): int {
    (if m >= 1 then m - 1 else 0) + (if m < H then m else H - 1)
  }

  lemma GridStep(W: int, v: int, v': int, m: int)
    ensures W * v + (m - 1) * (2 * W - 2) + (W * v' + (2 * W - 2)) == W * (v + v') + m * (2 * W - 2)
  {
    assert W * (v + v') == W * v + W * v';
    assert m * (2 * W - 2) == (m - 1) * (2 * W - 2) + (2 * W - 2);
  }

  lemma {:induction false} GridLinksCount(W: nat, H: nat, m: nat)
    requires 1 <= H && m <= H && W >= 1
    ensures |GridLinks(W, H, m)| == W * Verticals(H, m) + m * (2 * W - 2)
  {
    if m > 0 {
      GridLinksSnoc(W, H, m - 1);
      GridLinksCount(W, H, m - 1);
      RowLinksCount(W, H, m - 1, W);
      assert Verticals(H, m) == Verticals(H, m - 1) + Vertical(H, m - 1);
      GridStep(W, Verticals(H, m - 1), Vertical(H, m - 1), m);
    }
  }

  /** One link per (cell, direction) pair with the neighbour in bounds:
      4WH - 2W - 2H in all, each adjacent pair of cells being linked in both
      directions. */
  lemma AllLinksCount(W: nat, H: nat)
    requires W >= 1 && H >= 1
    ensures |AllLinks(W, H)| == 4 * W * H - 2 * W - 2 * H
  {
    GridLinksCount(W, H, H);
    assert W * (2 * H - 2) == 2 * W * H - 2 * W;
    assert H * (2 * W - 2) == 2 * W * H - 2 * H;
  }

  // ---------------------------------------------------------------------
  // In which order links are visited

  function DirectionRank(d: Position): int {
    match d
    case Up => 0
    case Down => 1
    case Left => 2
    case Right => 3
  }

  /** Row-major order: y first, then x, then UP, DOWN, LEFT, RIGHT. */
  predicate Before(a: Link, b: Link) {
    a.y < b.y || (a.y == b.y && (a.x < b.x || (a.x == b.x && DirectionRank(a.d) < DirectionRank(b.d))))
  }

  ghost predicate Ordered(ls: seq<Link>) {
    forall i, j :: 0 <= i < j < |ls| ==> Before(ls[i], ls[j])
  }

  /** Every link of a comes before every link of b. */
  ghost predicate AllBefore(a: seq<Link>, b: seq<Link>) {
    forall i, j :: 0 <= i < |a| && 0 <= j < |b| ==> Before(a[i], b[j])
  }

  lemma OrderedConcat(a: seq<Link>, b: seq<Link>)
    requires Ordered(a) && Ordered(b) && AllBefore(a, b)
    ensures Ordered(a + b)
  {
    forall i, j | 0 <= i < j < |a + b| ensures Before((a + b)[i], (a + b)[j]) {
      if j < |a| {
        assert (a + b)[i] == a[i] && (a + b)[j] == a[j];
      } else if i >= |a| {
        assert (a + b)[i] == b[i - |a|] && (a + b)[j] == b[j - |a|];
      } else {
        assert (a + b)[i] == a[i] && (a + b)[j] == b[j - |a|];
      }
    }
  }

  /** All links of a sequence lie in row y, at columns below n. */
  ghost predicate InRowBelow(ls: seq<Link>, y: int, n: int) {
    forall i :: 0 <= i < |ls| ==> ls[i].y == y && 0 <= ls[i].x < n
  }

  /** All links of a sequence start at cell (x, y). */
  ghost predicate InCell(ls: seq<Link>, x: int, y: int) {
    forall i :: 0 <= i < |ls| ==> ls[i].x == x && ls[i].y == y
  }

  lemma InCellConcat(a: seq<Link>, b: seq<Link>, x: int, y: int)
    requires InCell(a, x, y) && InCell(b, x, y)
    ensures InCell(a + b, x, y)
  {
    forall i | 0 <= i < |a + b| ensures (a + b)[i].x == x && (a + b)[i].y == y {
      if i < |a| {
        assert (a + b)[i] == a[i];
      } else {
        assert (a + b)[i] == b[i - |a|];
      }
    }
  }

  lemma CellLinksOrdered(W: int, H: int, x: int, y: int)
    ensures Ordered(CellLinks(W, H, x, y))
    ensures InCell(CellLinks(W, H, x, y), x, y)
  {
    var u := Step(Open(W, H, x, y, Up), Link(x, y, Up));
    var d := Step(Open(W, H, x, y, Down), Link(x, y, Down));
    var l := Step(Open(W, H, x, y, Left), Link(x, y, Left));
    var r := Step(Open(W, H, x, y, Right), Link(x, y, Right));
    InCellConcat(u, d, x, y);
    InCellConcat(u + d, l, x, y);
    InCellConcat(u + d + l, r, x, y);
    OrderedConcat(u, d);
    OrderedConcat(u + d, l);
    OrderedConcat(u + d + l, r);
  }

  lemma RowStepOrdered(a: seq<Link>, b: seq<Link>, y: int, n: nat)
    requires n > 0 && Ordered(a) && InRowBelow(a, y, n - 1)
    requires Ordered(b) && InCell(b, n - 1, y)
    ensures Ordered(a + b) && InRowBelow(a + b, y, n)
  {
    OrderedConcat(a, b);
    forall i | 0 <= i < |a + b| ensures (a + b)[i].y == y && 0 <= (a + b)[i].x < n {
      if i < |a| {
        assert (a + b)[i] == a[i];
      } else {
        assert (a + b)[i] == b[i - |a|];
      }
    }
  }

  lemma {:induction false} RowFamilyOrdered(f: nat -> seq<Link>, y: int, n: nat)
    requires forall k :: 0 <= k < n ==> Ordered(f(k)) && InCell(f(k), k, y)
    ensures Ordered(Flatten(f, n)) && InRowBelow(Flatten(f, n), y, n)
  {
    if n > 0 {
      RowFamilyOrdered(f, y, n - 1);
      RowStepOrdered(Flatten(f, n - 1), f(n - 1), y, n);
    }
  }

  lemma RowLinksOrdered(W: int, H: int, y: int, n: nat)
    ensures Ordered(RowLinks(W, H, y, n))
    ensures InRowBelow(RowLinks(W, H, y, n), y, n)
  {
    forall k | 0 <= k < n ensures Ordered(RowCells(W, H, y)(k)) && InCell(RowCells(W, H, y)(k), k, y) {
      CellLinksOrdered(W, H, k, y);
    }
    RowFamilyOrdered(RowCells(W, H, y), y, n);
  }

  /** All links of a sequence lie in rows below m. */
  ghost predicate InRowsBelow(ls: seq<Link>, m: int) {
    forall i :: 0 <= i < |ls| ==> 0 <= ls[i].y < m
  }

  lemma GridStepOrdered(a: seq<Link>, b: seq<Link>, m: nat, w: int)
    requires m > 0 && Ordered(a) && InRowsBelow(a, m - 1)
    requires Ordered(b) && InRowBelow(b, m - 1, w)
    ensures Ordered(a + b) && InRowsBelow(a + b, m)
  {
    OrderedConcat(a, b);
    forall i | 0 <= i < |a + b| ensures 0 <= (a + b)[i].y < m {
      if i < |a| {
        assert (a + b)[i] == a[i];
      } else {
        assert (a + b)[i] == b[i - |a|];
      }
    }
  }

  lemma {:induction false} GridFamilyOrdered(f: nat -> seq<Link>, w: int, m: nat)
    requires forall k :: 0 <= k < m ==> Ordered(f(k)) && InRowBelow(f(k), k, w)
    ensures Ordered(Flatten(f, m)) && InRowsBelow(Flatten(f, m), m)
  {
    if m > 0 {
      GridFamilyOrdered(f, w, m - 1);
      GridStepOrdered(Flatten(f, m - 1), f(m - 1), m, w);
    }
  }

  lemma GridLinksOrdered(W: nat, H: nat, m: nat)
    ensures Ordered(GridLinks(W, H, m))
    ensures InRowsBelow(GridLinks(W, H, m), m)
  {
    forall k | 0 <= k < m ensures Ordered(GridRows(W, H)(k)) && InRowBelow(GridRows(W, H)(k), k, W) {
      RowLinksOrdered(W, H, k, W);
    }
    GridFamilyOrdered(GridRows(W, H), W, m);
  }

  /** The generator visits the links in row-major order, y outer, x inner,
      and UP, DOWN, LEFT, RIGHT within a cell; so no link is visited twice. */
  lemma AllLinksOrdered(W: nat, H: nat)
    ensures Ordered(AllLinks(W, H))
  {
    GridLinksOrdered(W, H, H);
  }
}
