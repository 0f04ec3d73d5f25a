/** NumericRandomAgent: the agent whose states give each element atom as a
    numeric fluent "(= ATOM n)", with no resource and no connection atoms. */
module NumericAgentModel {
  import opened Seqs
  import opened Text
  import opened Domain
  import opened Variables
  import opened Grounding
  import opened ElementsMatrix
  import opened States

  class NumericRandomAgent {
    const info: GameInformation
    const gameElementVars: map<string, seq<string>>
    /** The iteration order of a cell's set of sprite keys. */
    const enumerate: set<string> -> seq<string>

    ghost predicate Valid() {
      Enumerates(enumerate) &&
      gameElementVars.Keys == info.gameElementsCorrespondence.Keys && VarsCover(info, gameElementVars)
    }

    /** The state string of a snapshot: its numeric element atoms only. */
    function State(s: Snapshot): string
      requires ReadableGrid(s.elements)
    {
      Render(SnapshotAtoms(info, Numeric, gameElementVars, enumerate, s))
    }

    /** The placeholders of each sprite key are extracted. */
    constructor (info: GameInformation, enumerate: set<string> -> seq<string>)
      requires Enumerates(enumerate)
      ensures Valid()
      ensures this.info == info && this.enumerate == enumerate
      ensures forall k :: k in gameElementVars ==>
        NoDup(gameElementVars[k]) && Elems(gameElementVars[k]) == VarSet(info.gameElementsCorrespondence[k])
    {
      this.info := info;
      this.enumerate := enumerate;
      var vars := ExtractVariablesFromPredicates(info.gameElementsCorrespondence);
      gameElementVars := vars;
    }

    /** translateGameStateToPDDL of the numeric variant: the grounded atoms
        alone, joined and wrapped. */
    method TranslateGameStateToPDDL(s: Snapshot) returns (r: string)
      requires Valid() && Translatable(info, gameElementVars, enumerate, s)
      ensures r == State(s)
    {
      var predicates := GroundSnapshot(info, Numeric, gameElementVars, enumerate, s);
      r := "(" + Join(" ", predicates) + ")";
    }

    /** A numeric state string has no lower-case letter. */
    lemma StateIsUpper(s: Snapshot)
      requires ReadableGrid(s.elements)
      ensures NoLower(State(s))
    {
      var atoms := SnapshotAtoms(info, Numeric, gameElementVars, enumerate, s);
      SnapshotAtomsUpper(info, Numeric, gameElementVars, enumerate, s);
      assert atoms + [] == atoms;
      RenderUpper(atoms, []);
    }
  }
}
