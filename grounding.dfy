/** State grounding: the atoms translateGameStateToPDDL produces for the
    sprites of a W x H map. Each template of a known sprite becomes one atom
    in which every variable of the sprite that the template contains is
    bound to its object; binding the avatar variable also emits the atom of
    the avatar's orientation when the game has an orientation table. */
module Grounding {
  import opened Options
  import opened Seqs
  import opened Text
  import opened Domain

  // ---------------------------------------------------------------------
  // Objects and orientation

  /** The object a variable is bound to at cell (x, y): the avatar variable
      has no coordinates, any other variable gets those of the cell. */
  function VariableInstance(info: GameInformation, v: string, x: int, y: int): string {
    if v == info.avatarVariable then AvatarInstance(info) else CellInstance(info, v, x, y)
  }

  /** The orientation lookup succeeds: there is no table, or the orientation
      has a unit component (tested x = 1, x = -1, y = 1, y = -1) whose
      direction the table lists. */
  predicate OrientationResolves(info: GameInformation, o: Vec) {
    info.orientationCorrespondence.Some? ==>
      Facing(o).Some? && Facing(o).value in info.orientationCorrespondence.value
  }

  /** The template the table lists for the avatar's facing ("" when the
      lookup fails, which the translation never meets when it looks up). */
  function OrientationTemplate(info: GameInformation, o: Vec): string {
    match info.orientationCorrespondence
    case None => ""
    case Some(table) =>
      match Facing(o)
      case None => ""
      case Some(d) => if d in table then table[d] else ""
  }

  /** The orientation atom: the facing's template with the avatar variable
      bound to the avatar, upper-cased. */
  function OrientationAtom(info: GameInformation, o: Vec): string {
    Upper(Replace(OrientationTemplate(info, o), info.avatarVariable, AvatarInstance(info)))
  }

  // ---------------------------------------------------------------------
  // One template

  /** The instance of template p once the variables of vars have been
      visited in order: each one that the ORIGINAL template contains is
      replaced, in the instance built so far, by its object. */
  function Bind(info: GameInformation, vars: seq<string>, p: string, x: int, y: int): string
    decreases |vars|
  {
    if vars == [] then p
    else
      var v := vars[|vars| - 1];
      var s := Bind(info, vars[..|vars| - 1], p, x, y);
      if Contains(p, v) then Replace(s, v, VariableInstance(info, v, x, y)) else s
  }

  /** The orientation atoms emitted while visiting vars: one each time the
      visited variable is the avatar's, the template contains it and the
      game has an orientation table. */
  function OrientationAtoms(info: GameInformation, vars: seq<string>, p: string, o: Vec): seq<string>
    decreases |vars|
  {
    if vars == [] then []
    else
      var v := vars[|vars| - 1];
      OrientationAtoms(info, vars[..|vars| - 1], p, o) +
      (if Contains(p, v) && v == info.avatarVariable && info.orientationCorrespondence.Some?
       then [OrientationAtom(info, o)] else [])
  }

  /** The two ways an instance is turned into an atom: upper-cased as is
      (RandomAgent, CellBasedRandomAgent) or as the numeric fluent
      "(= instance n)" (NumericRandomAgent), n being x when the instance
      mentions "column" and y otherwise. */
  datatype Style = Plain | Numeric

  /** The column-or-row test of the numeric variant. */
  function Coordinate(inst: string, x: int, y: int): int {
    if Contains(inst, "column") then x else y
  }

  function Finish(style: Style, inst: string, x: int, y: int): string {
    match style
    case Plain => Upper(inst)
    case Numeric => Upper("(= " + inst + " " + IntToString(Coordinate(inst, x, y)) + ")")
  }

  /** The atoms of one template: its orientation atoms, then its own atom. */
  function TemplateAtoms(info: GameInformation, style: Style, vars: seq<string>, p: string,
                         o: Vec, x: int, y: int): seq<string> {
    OrientationAtoms(info, vars, p, o) + [Finish(style, Bind(info, vars, p, x, y), x, y)]
  }

  // ---------------------------------------------------------------------
  // Sprites, cells and the map

  function TemplateFamily(info: GameInformation, style: Style, vars: seq<string>,
                          o: Vec, x: int, y: int): string -> seq<string> {
    p => TemplateAtoms(info, style, vars, p, o, x, y)
  }

  /** The atoms of the templates ps, in order. */
  function TemplatesAtoms(info: GameInformation, style: Style, vars: seq<string>, ps: seq<string>,
                          o: Vec, x: int, y: int): seq<string> {
    ConcatMap(TemplateFamily(info, style, vars, o, x, y), ps)
  }

  /** The sprite keys the description lists, each with its variables. */
  predicate VarsCover(info: GameInformation, elementVars: map<string, seq<string>>) {
    forall s :: s in info.gameElementsCorrespondence ==> s in elementVars
  }

  /** A sprite key the description lists contributes the atoms of its
      templates; any other key contributes nothing. */
  function SpriteAtoms(info: GameInformation, style: Style, elementVars: map<string, seq<string>>,
                       s: string, o: Vec, x: int, y: int): seq<string> {
    if s in info.gameElementsCorrespondence && s in elementVars
    then TemplatesAtoms(info, style, elementVars[s], info.gameElementsCorrespondence[s], o, x, y)
    else []
  }

  function SpriteFamily(info: GameInformation, style: Style, elementVars: map<string, seq<string>>,
                        o: Vec, x: int, y: int): string -> seq<string> {
    s => SpriteAtoms(info, style, elementVars, s, o, x, y)
  }

  /** The atoms of the sprite keys of one cell, in enumeration order. */
  function CellAtoms(info: GameInformation, style: Style, elementVars: map<string, seq<string>>,
                     sprites: seq<string>, o: Vec, x: int, y: int): seq<string> {
    ConcatMap(SpriteFamily(info, style, elementVars, o, x, y), sprites)
  }

  /** The cell atoms of row y, as a family over x. */
  function RowCellAtoms(info: GameInformation, style: Style, elementVars: map<string, seq<string>>,
                        g: seq<seq<seq<string>>>, o: Vec, y: int): nat -> seq<string> {
    (x: nat) => if x < |g| && 0 <= y < |g[x]| then CellAtoms(info, style, elementVars, g[x][y], o, x, y) else []
  }

  /** The atoms of the first n cells of row y, left to right. */
  function RowAtoms(info: GameInformation, style: Style, elementVars: map<string, seq<string>>,
                    g: seq<seq<seq<string>>>, o: Vec, y: int, n: nat): seq<string> {
    Flatten(RowCellAtoms(info, style, elementVars, g, o, y), n)
  }

  function GridRowAtoms(info: GameInformation, style: Style, elementVars: map<string, seq<string>>,
                        g: seq<seq<seq<string>>>, o: Vec): nat -> seq<string> {
    (y: nat) => RowAtoms(info, style, elementVars, g, o, y, |g|)
  }

  /** The atoms of the first m rows, top to bottom. */
  function GridAtoms(info: GameInformation, style: Style, elementVars: map<string, seq<string>>,
                     g: seq<seq<seq<string>>>, o: Vec, m: nat): seq<string> {
    Flatten(GridRowAtoms(info, style, elementVars, g, o), m)
  }

  /** The element atoms of map g (y outer, x inner, then the cell's sprite
      keys). */
  function ElementAtoms(info: GameInformation, style: Style, elementVars: map<string, seq<string>>,
                        g: seq<seq<seq<string>>>, o: Vec): seq<string>
    requires |g| >= 1
  {
    GridAtoms(info, style, elementVars, g, o, Height(g))
  }

  lemma RowAtomsSnoc(info: GameInformation, style: Style, elementVars: map<string, seq<string>>,
                     g: seq<seq<seq<string>>>, o: Vec, y: nat, n: nat)
    requires n < |g| && y < |g[n]|
    ensures RowAtoms(info, style, elementVars, g, o, y, n + 1) ==
      RowAtoms(info, style, elementVars, g, o, y, n) + CellAtoms(info, style, elementVars, g[n][y], o, n, y)
  {
  }

  lemma TemplatesAtomsSnoc(info: GameInformation, style: Style, vars: seq<string>, ps: seq<string>,
                           o: Vec, x: int, y: int, j: nat)
    requires j < |ps|
    ensures TemplatesAtoms(info, style, vars, ps[..j + 1], o, x, y) ==
      TemplatesAtoms(info, style, vars, ps[..j], o, x, y) + TemplateAtoms(info, style, vars, ps[j], o, x, y)
  {
    assert ps[..j + 1] == ps[..j] + [ps[j]];
    ConcatMapSnoc(TemplateFamily(info, style, vars, o, x, y), ps[..j], ps[j]);
  }

  lemma GridAtomsSnoc(info: GameInformation, style: Style, elementVars: map<string, seq<string>>,
                      g: seq<seq<seq<string>>>, o: Vec, m: nat)
    ensures GridAtoms(info, style, elementVars, g, o, m + 1) ==
      GridAtoms(info, style, elementVars, g, o, m) + RowAtoms(info, style, elementVars, g, o, m, |g|)
  {
  }

  // ---------------------------------------------------------------------
  // Properties of one template

  /** With duplicate-free variables, a template emits exactly one
      orientation atom when the game has an orientation table and the
      template contains the avatar variable, and none otherwise. */
  lemma {:induction false} OrientationAtomsCount(info: GameInformation, vars: seq<string>, p: string, o: Vec)
    requires NoDup(vars)
    ensures OrientationAtoms(info, vars, p, o) ==
      if info.orientationCorrespondence.Some? && info.avatarVariable in vars && Contains(p, info.avatarVariable)
      then [OrientationAtom(info, o)] else []
    decreases |vars|
  {
    if vars != [] {
      var vs, v := vars[..|vars| - 1], vars[|vars| - 1];
      assert vars == vs + [v];
      NoDupSnoc(vs, v);
      OrientationAtomsCount(info, vs, p, o);
    }
  }

  /** Only the variables that the template contains are instantiated:
      removing any other variable from the list changes neither the
      instance nor the orientation atoms. */
  lemma {:induction false} BindIgnoresAbsent(info: GameInformation, a: seq<string>, v: string, b: seq<string>,
                                             p: string, o: Vec, x: int, y: int)
    requires !Contains(p, v)
    ensures Bind(info, a + [v] + b, p, x, y) == Bind(info, a + b, p, x, y)
    ensures OrientationAtoms(info, a + [v] + b, p, o) == OrientationAtoms(info, a + b, p, o)
  {
    BindIgnoresAbsentInstance(info, a, v, b, p, x, y);
    OrientationIgnoresAbsent(info, a, v, b, p, o);
  }

  lemma {:induction false} BindIgnoresAbsentInstance(info: GameInformation, a: seq<string>, v: string, b: seq<string>,
                                                     p: string, x: int, y: int)
    requires !Contains(p, v)
    ensures Bind(info, a + [v] + b, p, x, y) == Bind(info, a + b, p, x, y)
    decreases |b|
  {
    if b == [] {
      assert (a + [v] + b)[..|a|] == a;
      assert a + b == a;
    } else {
      var b', w := b[..|b| - 1], b[|b| - 1];
      assert (a + [v] + b)[..|a + [v] + b| - 1] == a + [v] + b';
      assert (a + b)[..|a + b| - 1] == a + b';
      BindIgnoresAbsentInstance(info, a, v, b', p, x, y);
    }
  }

  lemma {:induction false} OrientationIgnoresAbsent(info: GameInformation, a: seq<string>, v: string, b: seq<string>,
                                                    p: string, o: Vec)
    requires !Contains(p, v)
    ensures OrientationAtoms(info, a + [v] + b, p, o) == OrientationAtoms(info, a + b, p, o)
    decreases |b|
  {
    if b == [] {
      assert (a + [v] + b)[..|a|] == a;
      assert a + b == a;
    } else {
      var b', w := b[..|b| - 1], b[|b| - 1];
      assert (a + [v] + b)[..|a + [v] + b| - 1] == a + [v] + b';
      assert (a + b)[..|a + b| - 1] == a + b';
      OrientationIgnoresAbsent(info, a, v, b', p, o);
    }
  }

  /** A template that contains none of the variables is emitted as its
      upper case, with no orientation atom. */
  lemma {:induction false} BindNoVariables(info: GameInformation, vars: seq<string>, p: string, o: Vec, x: int, y: int)
    requires forall i :: 0 <= i < |vars| ==> !Contains(p, vars[i])
    ensures Bind(info, vars, p, x, y) == p
    ensures OrientationAtoms(info, vars, p, o) == []
    decreases |vars|
  {
    if vars != [] {
      BindNoVariables(info, vars[..|vars| - 1], p, o, x, y);
    }
  }

  /** The text a variable is replaced by carries no '?'; the avatar's has no
      coordinates, and another placeholder's names its cell, so that two
      cells give two different objects. */
  lemma VariableInstanceShape(info: GameInformation, v: string, x: int, y: int, x': int, y': int)
    ensures '?' !in VariableInstance(info, v, x, y)
    ensures v == info.avatarVariable ==> VariableInstance(info, v, x, y) == VariableInstance(info, v, x', y')
    ensures (v != info.avatarVariable && IsVariableToken(v) &&
             VariableInstance(info, v, x, y) == VariableInstance(info, v, x', y')) ==> x == x' && y == y'
  {
    StripMarkerDeletes(info.avatarVariable + " - " + TypeOf(info, info.avatarVariable));
    StripMarkerDeletes(v + "_" + IntToString(x) + "_" + IntToString(y) + " - " + TypeOf(info, v));
    if v != info.avatarVariable && IsVariableToken(v) && VariableInstance(info, v, x, y) == VariableInstance(info, v, x', y') {
      CellInstanceInjective(info, v, x, y, v, x', y');
    }
  }

  /** The numeric atom is the plain atom wrapped as "(= atom n)": the
      wrapping is applied before upper-casing, and upper-casing leaves the
      wrapper and the number unchanged. */
  lemma NumericWrapsPlain(inst: string, x: int, y: int)
    ensures Finish(Numeric, inst, x, y) ==
      "(= " + Finish(Plain, inst, x, y) + " " + IntToString(Coordinate(inst, x, y)) + ")"
  {
    var n := IntToString(Coordinate(inst, x, y));
    UpperConcat("(= " + inst + " " + n, ")");
    UpperConcat("(= " + inst + " ", n);
    UpperConcat("(= " + inst, " ");
    UpperConcat("(= ", inst);
    UpperNoLower("(= ");
    UpperNoLower(" ");
    UpperNoLower(")");
    IntToStringChars(Coordinate(inst, x, y));
    UpperNoLower(n);
  }

  /** The two styles emit the same orientation atoms, unwrapped, before the
      template's own atom, which the numeric style wraps. */
  lemma TemplateAtomsStyles(info: GameInformation, vars: seq<string>, p: string, o: Vec, x: int, y: int)
    ensures var inst := Bind(info, vars, p, x, y);
      TemplateAtoms(info, Numeric, vars, p, o, x, y) ==
      OrientationAtoms(info, vars, p, o) +
      ["(= " + Finish(Plain, inst, x, y) + " " + IntToString(Coordinate(inst, x, y)) + ")"]
  {
    NumericWrapsPlain(Bind(info, vars, p, x, y), x, y);
  }

  // ---------------------------------------------------------------------
  // Where the atoms come from

  lemma {:induction false} OrientationAtomsMembers(info: GameInformation, vars: seq<string>, p: string, o: Vec, a: string)
    requires a in OrientationAtoms(info, vars, p, o)
    ensures a == OrientationAtom(info, o)
    decreases |vars|
  {
    var vs := vars[..|vars| - 1];
    if a in OrientationAtoms(info, vs, p, o) {
      OrientationAtomsMembers(info, vs, p, o, a);
    }
  }

  lemma TemplatesAtomsMembers(info: GameInformation, style: Style, vars: seq<string>, ps: seq<string>,
                              o: Vec, x: int, y: int, a: string)
    ensures a in TemplatesAtoms(info, style, vars, ps, o, x, y) <==>
      exists k :: 0 <= k < |ps| && a in TemplateAtoms(info, style, vars, ps[k], o, x, y)
  {
    ConcatMapMembers(TemplateFamily(info, style, vars, o, x, y), ps, a);
  }

  lemma CellAtomsMembers(info: GameInformation, style: Style, elementVars: map<string, seq<string>>,
                         sprites: seq<string>, o: Vec, x: int, y: int, a: string)
    ensures a in CellAtoms(info, style, elementVars, sprites, o, x, y) <==>
      exists k :: 0 <= k < |sprites| && a in SpriteAtoms(info, style, elementVars, sprites[k], o, x, y)
  {
    ConcatMapMembers(SpriteFamily(info, style, elementVars, o, x, y), sprites, a);
  }

  /** a is an atom of one of the sprite keys of cell (x, y). */
  ghost predicate FromCell(info: GameInformation, style: Style, elementVars: map<string, seq<string>>,
                           g: seq<seq<seq<string>>>, o: Vec, a: string, x: int, y: int) {
    0 <= x < |g| && 0 <= y < |g[x]| &&
    exists k :: 0 <= k < |g[x][y]| && a in SpriteAtoms(info, style, elementVars, g[x][y][k], o, x, y)
  }

  lemma RowAtomsMembers(info: GameInformation, style: Style, elementVars: map<string, seq<string>>,
                        g: seq<seq<seq<string>>>, o: Vec, y: nat, a: string)
    requires IsGrid(g) && y < Height(g)
    ensures a in RowAtoms(info, style, elementVars, g, o, y, |g|) <==>
      exists x :: 0 <= x < |g| && FromCell(info, style, elementVars, g, o, a, x, y)
  {
    var f := RowCellAtoms(info, style, elementVars, g, o, y);
    FlattenMembers(f, |g|, a);
    forall x | 0 <= x < |g|
      ensures a in f(x) <==> FromCell(info, style, elementVars, g, o, a, x, y)
    {
      CellAtomsMembers(info, style, elementVars, g[x][y], o, x, y, a);
    }
  }

  /** An element atom comes from a sprite key of some cell, and every atom
      of every sprite key of every cell is emitted. */
  lemma ElementAtomsMembers(info: GameInformation, style: Style, elementVars: map<string, seq<string>>,
                            g: seq<seq<seq<string>>>, o: Vec, a: string)
    requires IsGrid(g)
    ensures a in ElementAtoms(info, style, elementVars, g, o) <==>
      exists x, y :: FromCell(info, style, elementVars, g, o, a, x, y)
  {
    var rows := GridRowAtoms(info, style, elementVars, g, o);
    FlattenMembers(rows, Height(g), a);
    forall y | 0 <= y < Height(g)
      ensures a in rows(y) <==> exists x :: 0 <= x < |g| && FromCell(info, style, elementVars, g, o, a, x, y)
    {
      RowAtomsMembers(info, style, elementVars, g, o, y, a);
    }
    if exists x, y :: FromCell(info, style, elementVars, g, o, a, x, y) {
      var x, y :| FromCell(info, style, elementVars, g, o, a, x, y);
      assert 0 <= y < Height(g) && a in rows(y);
    }
  }

  /** Unknown sprite keys are skipped: they can be removed from a cell
      without changing its atoms. */
  lemma CellAtomsSkipsUnknown(info: GameInformation, style: Style, elementVars: map<string, seq<string>>,
                              a: seq<string>, s: string, b: seq<string>, o: Vec, x: int, y: int)
    requires s !in info.gameElementsCorrespondence
    ensures CellAtoms(info, style, elementVars, a + [s] + b, o, x, y) ==
      CellAtoms(info, style, elementVars, a + b, o, x, y)
  {
    var f := SpriteFamily(info, style, elementVars, o, x, y);
    ConcatMapConcat(f, a + [s], b);
    ConcatMapConcat(f, a, b);
    ConcatMapSnoc(f, a, s);
  }

  /** Every element atom is upper case. */
  lemma ElementAtomsUpper(info: GameInformation, style: Style, elementVars: map<string, seq<string>>,
                          g: seq<seq<seq<string>>>, o: Vec, a: string)
    requires IsGrid(g) && a in ElementAtoms(info, style, elementVars, g, o)
    ensures NoLower(a)
  {
    ElementAtomsMembers(info, style, elementVars, g, o, a);
    var x, y :| FromCell(info, style, elementVars, g, o, a, x, y);
    var k :| 0 <= k < |g[x][y]| && a in SpriteAtoms(info, style, elementVars, g[x][y][k], o, x, y);
    var s := g[x][y][k];
    var vars, ps := elementVars[s], info.gameElementsCorrespondence[s];
    TemplatesAtomsMembers(info, style, vars, ps, o, x, y, a);
    var j :| 0 <= j < |ps| && a in TemplateAtoms(info, style, vars, ps[j], o, x, y);
    var inst := Bind(info, vars, ps[j], x, y);
    if a in OrientationAtoms(info, vars, ps[j], o) {
      OrientationAtomsMembers(info, vars, ps[j], o, a);
      UpperIsUpper(Replace(OrientationTemplate(info, o), info.avatarVariable, AvatarInstance(info)));
    } else {
      assert a == Finish(style, inst, x, y);
      UpperIsUpper(inst);
      UpperIsUpper("(= " + inst + " " + IntToString(Coordinate(inst, x, y)) + ")");
    }
  }

  // ---------------------------------------------------------------------
  // When the avatar's facing is looked up

  /** Grounding template p binds the avatar variable while the game has an
      orientation table, which looks the avatar's facing up. */
  predicate TemplateNeedsFacing(info: GameInformation, vars: seq<string>, p: string) {
    info.orientationCorrespondence.Some? && info.avatarVariable in vars && Contains(p, info.avatarVariable)
  }

  predicate SpriteNeedsFacing(info: GameInformation, vars: seq<string>, ps: seq<string>) {
    exists j :: 0 <= j < |ps| && TemplateNeedsFacing(info, vars, ps[j])
  }

  predicate CellNeedsFacing(info: GameInformation, elementVars: map<string, seq<string>>, sprites: seq<string>) {
    exists k :: 0 <= k < |sprites| && sprites[k] in info.gameElementsCorrespondence && sprites[k] in elementVars &&
      SpriteNeedsFacing(info, elementVars[sprites[k]], info.gameElementsCorrespondence[sprites[k]])
  }

  /** Each template of a sprite key in a cell that needs the facing needs
      it only if the cell does. */
  lemma SpriteFacing(info: GameInformation, elementVars: map<string, seq<string>>, sprites: seq<string>,
                     k: int, o: Vec)
    requires 0 <= k < |sprites| && sprites[k] in info.gameElementsCorrespondence && sprites[k] in elementVars
    requires CellNeedsFacing(info, elementVars, sprites) ==> OrientationResolves(info, o)
    ensures forall j ::
      (0 <= j < |info.gameElementsCorrespondence[sprites[k]]| &&
       TemplateNeedsFacing(info, elementVars[sprites[k]], info.gameElementsCorrespondence[sprites[k]][j])) ==>
      OrientationResolves(info, o)
  {
    var vars, ps := elementVars[sprites[k]], info.gameElementsCorrespondence[sprites[k]];
    forall j | 0 <= j < |ps| && TemplateNeedsFacing(info, vars, ps[j])
      ensures OrientationResolves(info, o)
    {
      assert SpriteNeedsFacing(info, vars, ps);
      assert CellNeedsFacing(info, elementVars, sprites);
    }
  }

  /** Some cell of map g holds a known sprite key one of whose templates
      needs the avatar's facing: only then does the translation look it up. */
  predicate GridNeedsFacing(info: GameInformation, elementVars: map<string, seq<string>>, g: seq<seq<seq<string>>>) {
    exists x, y :: 0 <= x < |g| && 0 <= y < |g[x]| && CellNeedsFacing(info, elementVars, g[x][y])
  }
  lemma GridFacing(info: GameInformation, elementVars: map<string, seq<string>>,
                   g: seq<seq<seq<string>>>, y: int, o: Vec)
    requires GridNeedsFacing(info, elementVars, g) ==> OrientationResolves(info, o)
    ensures forall x :: 0 <= x < |g| && 0 <= y < |g[x]| && CellNeedsFacing(info, elementVars, g[x][y]) ==>
      OrientationResolves(info, o)
  {
    forall x | 0 <= x < |g| && 0 <= y < |g[x]| && CellNeedsFacing(info, elementVars, g[x][y])
      ensures OrientationResolves(info, o)
    {
      assert GridNeedsFacing(info, elementVars, g);
    }
  }


  /** With the sprite's variables duplicate-free, a template needs the
      facing exactly when it emits an orientation atom. */
  lemma TemplateNeedsFacingIff(info: GameInformation, vars: seq<string>, p: string, o: Vec)
    requires NoDup(vars)
    ensures TemplateNeedsFacing(info, vars, p) <==> OrientationAtoms(info, vars, p, o) != []
  {
    OrientationAtomsCount(info, vars, p, o);
  }

  // ---------------------------------------------------------------------
  // The loops of translateGameStateToPDDL

  /** The body of the variable loop: when the template contains v, v is
      bound (with the orientation atom emitted first for the avatar
      variable) and replaced in the instance. */
  method BindVariable(info: GameInformation, v: string, p: string, o: Vec, x: int, y: int,
                      inst: string, predicates: seq<string>)
    returns (inst': string, predicates': seq<string>)
    requires Contains(p, v) && v == info.avatarVariable && info.orientationCorrespondence.Some? ==>
      OrientationResolves(info, o)
    ensures inst' == if Contains(p, v) then Replace(inst, v, VariableInstance(info, v, x, y)) else inst
    ensures predicates' == predicates +
      (if Contains(p, v) && v == info.avatarVariable && info.orientationCorrespondence.Some?
       then [OrientationAtom(info, o)] else [])
  {
    inst', predicates' := inst, predicates;
    if Contains(p, v) {
      var variableInstance;
      if v == info.avatarVariable {
        variableInstance := StripMarker(v + " - " + TypeOf(info, v));
        if info.orientationCorrespondence.Some? {
          var orientation := Facing(o);
          var template := info.orientationCorrespondence.value[orientation.value];
          predicates' := predicates + [Upper(Replace(template, v, variableInstance))];
        }
      } else {
        variableInstance := StripMarker(v + "_" + IntToString(x) + "_" + IntToString(y) + " - " + TypeOf(info, v));
      }
      inst' := Replace(inst, v, variableInstance);
    }
  }

  /** One template: the variable loop, then the instance saved as an atom
      (as "(= instance n)" in the numeric style). */
  method GroundTemplate(info: GameInformation, style: Style, vars: seq<string>, p: string,
                        o: Vec, x: int, y: int, predicates: seq<string>)
    returns (r: seq<string>)
    requires TemplateNeedsFacing(info, vars, p) ==> OrientationResolves(info, o)
    ensures r == predicates + TemplateAtoms(info, style, vars, p, o, x, y)
  {
    var predicateInstance := p;
    r := predicates;
    var i := 0;
    while i < |vars|
      invariant i <= |vars|
      invariant predicateInstance == Bind(info, vars[..i], p, x, y)
      invariant r == predicates + OrientationAtoms(info, vars[..i], p, o)
    {
      ghost var before := OrientationAtoms(info, vars[..i], p, o);
      ghost var emitted := r;
      assert vars[i] in vars;
      predicateInstance, r := BindVariable(info, vars[i], p, o, x, y, predicateInstance, r);
      assert vars[..i + 1][..i] == vars[..i];
      AppendAssoc(predicates, before, r[|emitted|..]);
      i := i + 1;
    }
    assert vars[..i] == vars;
    if style == Numeric {
      var coordinate := if Contains(predicateInstance, "column") then x else y;
      predicateInstance := "(= " + predicateInstance + " " + IntToString(coordinate) + ")";
    }
    r := r + [Upper(predicateInstance)];
  }

  /** The template loop of a known sprite key. */
  method GroundSprite(info: GameInformation, style: Style, vars: seq<string>, ps: seq<string>,
                      o: Vec, x: int, y: int, predicates: seq<string>)
    returns (r: seq<string>)
    requires forall j :: 0 <= j < |ps| && TemplateNeedsFacing(info, vars, ps[j]) ==> OrientationResolves(info, o)
    ensures r == predicates + TemplatesAtoms(info, style, vars, ps, o, x, y)
  {
    r := predicates;
    var j := 0;
    while j < |ps|
      invariant j <= |ps|
      invariant r == predicates + TemplatesAtoms(info, style, vars, ps[..j], o, x, y)
    {
      ghost var done := TemplatesAtoms(info, style, vars, ps[..j], o, x, y);
      r := GroundTemplate(info, style, vars, ps[j], o, x, y, r);
      TemplatesAtomsSnoc(info, style, vars, ps, o, x, y, j);
      AppendAssoc(predicates, done, TemplateAtoms(info, style, vars, ps[j], o, x, y));
      j := j + 1;
    }
    assert ps[..j] == ps;
  }

  /** The loop over the sprite keys of one cell; keys the description does
      not list are skipped. */
  method GroundCell(info: GameInformation, style: Style, elementVars: map<string, seq<string>>,
                    sprites: seq<string>, o: Vec, x: int, y: int, predicates: seq<string>)
    returns (r: seq<string>)
    requires VarsCover(info, elementVars)
    requires CellNeedsFacing(info, elementVars, sprites) ==> OrientationResolves(info, o)
    ensures r == predicates + CellAtoms(info, style, elementVars, sprites, o, x, y)
  {
    ghost var f := SpriteFamily(info, style, elementVars, o, x, y);
    r := predicates;
    var k := 0;
    while k < |sprites|
      invariant k <= |sprites|
      invariant r == predicates + ConcatMap(f, sprites[..k])
    {
      ghost var done := ConcatMap(f, sprites[..k]);
      var cellObservation := sprites[k];
      if cellObservation in info.gameElementsCorrespondence {
        var predicateList := info.gameElementsCorrespondence[cellObservation];
        SpriteFacing(info, elementVars, sprites, k, o);
        r := GroundSprite(info, style, elementVars[cellObservation], predicateList, o, x, y, r);
      }
      assert sprites[..k + 1] == sprites[..k] + [cellObservation];
      ConcatMapSnoc(f, sprites[..k], cellObservation);
      AppendAssoc(predicates, done, f(cellObservation));
      k := k + 1;
    }
    assert sprites[..k] == sprites;
  }

  /** The x loop of row y. */
  method GroundRow(info: GameInformation, style: Style, elementVars: map<string, seq<string>>,
                   g: seq<seq<seq<string>>>, o: Vec, y: nat, predicates: seq<string>)
    returns (r: seq<string>)
    requires IsGrid(g) && y < Height(g)
    requires VarsCover(info, elementVars)
    requires forall x :: 0 <= x < |g| && CellNeedsFacing(info, elementVars, g[x][y]) ==> OrientationResolves(info, o)
    ensures r == predicates + RowAtoms(info, style, elementVars, g, o, y, |g|)
  {
    r := predicates;
    var x := 0;
    while x < |g|
      invariant x <= |g|
      invariant r == predicates + RowAtoms(info, style, elementVars, g, o, y, x)
    {
      ghost var done := RowAtoms(info, style, elementVars, g, o, y, x);
      r := GroundCell(info, style, elementVars, g[x][y], o, x, y, r);
      RowAtomsSnoc(info, style, elementVars, g, o, y, x);
      AppendAssoc(predicates, done, CellAtoms(info, style, elementVars, g[x][y], o, x, y));
      x := x + 1;
    }
  }

  /** The element atoms of translateGameStateToPDDL: the y loop over the
      rows of map g. The source fails when it binds the avatar variable
      with an orientation it cannot look up; the precondition excludes
      exactly that. */
  method GroundElements(info: GameInformation, style: Style, elementVars: map<string, seq<string>>,
                        g: seq<seq<seq<string>>>, o: Vec)
    returns (predicates: seq<string>)
    requires IsGrid(g)
    requires VarsCover(info, elementVars)
    requires GridNeedsFacing(info, elementVars, g) ==> OrientationResolves(info, o)
    ensures predicates == ElementAtoms(info, style, elementVars, g, o)
  {
    predicates := [];
    var y := 0;
    while y < Height(g)
      invariant y <= Height(g)
      invariant predicates == GridAtoms(info, style, elementVars, g, o, y)
    {
      GridFacing(info, elementVars, g, y, o);
      predicates := GroundRow(info, style, elementVars, g, o, y, predicates);
      GridAtomsSnoc(info, style, elementVars, g, o, y);
      y := y + 1;
    }
  }
}
