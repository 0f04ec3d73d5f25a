/** Placeholder extraction: the variables of each sprite key are the matches
    of the pattern \?[a-zA-Z]+ in the key's predicate templates. */
module Variables {
  import opened Text
  import opened Seqs
  import opened Domain

  /** t is the match Matcher.find reports at position k of s: a '?' followed
      by a maximal, non-empty run of ASCII letters. */
  ghost predicate IsTokenAt(s: string, k: int, t: string) {
    0 <= k && k + |t| <= |s| && s[k..k + |t|] == t &&
    IsVariableToken(t) &&
    (k + |t| == |s| || !IsLetter(s[k + |t|]))
  }

  /** The end of the run of letters that starts at j. */
  function RunEnd(s: string, j: nat): (e: nat)
    requires j <= |s|
    ensures j <= e <= |s|
    ensures forall m :: j <= m < e ==> IsLetter(s[m])
    ensures e == |s| || !IsLetter(s[e])
    decreases |s| - j
  {
    if j < |s| && IsLetter(s[j]) then RunEnd(s, j + 1) else j
  }

  /** The successive matches of Matcher.find, scanning from position i. */
  function TokensFrom(s: string, i: nat): seq<string>
    requires i <= |s|
    decreases |s| - i
  {
    if i == |s| then []
    else if s[i] == '?' && i + 1 < |s| && IsLetter(s[i + 1]) then
      var e := RunEnd(s, i + 1);
      [s[i..e]] + TokensFrom(s, e)
    else TokensFrom(s, i + 1)
  }

  /** All matches in one template. */
  function Tokens(s: string): seq<string> {
    TokensFrom(s, 0)
  }

  /** A run of letters ending at a non-letter (or the end) ends at RunEnd. */
  lemma {:induction false} RunEndUnique(s: string, j: nat, e: nat)
    requires j <= e <= |s|
    requires forall m :: j <= m < e ==> IsLetter(s[m])
    requires e == |s| || !IsLetter(s[e])
    ensures e == RunEnd(s, j)
    decreases e - j
  {
    if j < e {
      RunEndUnique(s, j + 1, e);
    }
  }

  /** What a match at k tells about s. */
  lemma TokenAtFacts(s: string, k: int, t: string)
    requires IsTokenAt(s, k, t)
    ensures s[k] == '?' && k + 1 < |s| && IsLetter(s[k + 1])
    ensures k + |t| == RunEnd(s, k + 1) && t == s[k..RunEnd(s, k + 1)]
  {
    assert s[k] == t[0] && s[k + 1] == t[1];
    forall m | k + 1 <= m < k + |t| ensures IsLetter(s[m]) {
      assert s[m] == t[m - k];
    }
    RunEndUnique(s, k + 1, k + |t|);
  }

  /** A '?' followed by a letter starts a match. */
  lemma TokenAtRun(s: string, k: nat)
    requires k + 1 < |s| && s[k] == '?' && IsLetter(s[k + 1])
    ensures IsTokenAt(s, k, s[k..RunEnd(s, k + 1)])
  {
    var t := s[k..RunEnd(s, k + 1)];
    forall m | 1 <= m < |t| ensures IsLetter(t[m]) {
      assert t[m] == s[k + m];
    }
  }

  /** The scanner from i reports only genuine matches ... */
  lemma {:induction false} TokensFromSound(s: string, i: nat, t: string)
    requires i <= |s| && t in TokensFrom(s, i)
    ensures exists k :: i <= k && IsTokenAt(s, k, t)
    decreases |s| - i
  {
    if s[i] == '?' && i + 1 < |s| && IsLetter(s[i + 1]) {
      var e := RunEnd(s, i + 1);
      if t == s[i..e] {
        TokenAtRun(s, i);
      } else {
        TokensFromSound(s, e, t);
      }
    } else {
      TokensFromSound(s, i + 1, t);
    }
  }

  /** ... and every match that starts at or after i. */
  lemma {:induction false} TokensFromComplete(s: string, i: nat, k: int, t: string)
    requires i <= k && i <= |s| && IsTokenAt(s, k, t)
    ensures t in TokensFrom(s, i)
    decreases |s| - i
  {
    TokenAtFacts(s, k, t);
    if s[i] == '?' && i + 1 < |s| && IsLetter(s[i + 1]) {
      var e := RunEnd(s, i + 1);
      if k != i {
        assert !IsLetter(s[k]);
        assert k >= e;
        TokensFromComplete(s, e, k, t);
      }
    } else {
      assert k != i;
      TokensFromComplete(s, i + 1, k, t);
    }
  }

  /** The matches of a template are exactly its placeholder occurrences. */
  lemma TokensIff(s: string, t: string)
    ensures t in Tokens(s) <==> exists k :: IsTokenAt(s, k, t)
  {
    if t in Tokens(s) {
      TokensFromSound(s, 0, t);
    }
    if exists k :: IsTokenAt(s, k, t) {
      var k :| IsTokenAt(s, k, t);
      TokensFromComplete(s, 0, k, t);
    }
  }

  /** The variables of a sprite key: all matches in all of its templates. */
  function VarSet(templates: seq<string>): set<string>
    decreases |templates|
  {
    if templates == [] then {}
    else VarSet(templates[..|templates| - 1]) + Elems(Tokens(templates[|templates| - 1]))
  }

  /** A variable belongs to a key's set exactly when it is a placeholder
      occurrence, '?' and a maximal run of letters, in one of the key's
      templates. */
  lemma {:induction false} VarSetIff(templates: seq<string>, t: string)
    ensures t in VarSet(templates) <==>
      exists j, k :: 0 <= j < |templates| && IsTokenAt(templates[j], k, t)
    decreases |templates|
  {
    if templates != [] {
      var n := |templates| - 1;
      var front := templates[..n];
      VarSetIff(front, t);
      TokensIff(templates[n], t);
      assert forall j :: 0 <= j < n ==> front[j] == templates[j];
      if exists j, k :: 0 <= j < |templates| && IsTokenAt(templates[j], k, t) {
        var j, k :| 0 <= j < |templates| && IsTokenAt(templates[j], k, t);
        if j < n {
          assert IsTokenAt(front[j], k, t);
        }
      }
    }
  }

  /** Every extracted variable is a placeholder token. */
  lemma VarSetTokens(templates: seq<string>, t: string)
    requires t in VarSet(templates)
    ensures IsVariableToken(t)
  {
    VarSetIff(templates, t);
  }

  /** The matcher loop over one template, adding each match to the set
      being built. */
  method FindVariables(p: string, found: seq<string>) returns (r: seq<string>)
    requires NoDup(found)
    ensures NoDup(r)
    ensures Elems(r) == Elems(found) + Elems(Tokens(p))
  {
    r := found;
    var i := 0;
    while i < |p|
      invariant 0 <= i <= |p|
      invariant NoDup(r)
      invariant Elems(r) + Elems(TokensFrom(p, i)) == Elems(found) + Elems(Tokens(p))
    {
      if p[i] == '?' && i + 1 < |p| && IsLetter(p[i + 1]) {
        var j := i + 1;
        while j < |p| && IsLetter(p[j])
          invariant i + 1 <= j <= |p|
          invariant RunEnd(p, j) == RunEnd(p, i + 1)
        {
          j := j + 1;
        }
        InsertElems(r, p[i..j]);
        r := Insert(r, p[i..j]);
        i := j;
      } else {
        i := i + 1;
      }
    }
  }

  /** extractVariablesFromPredicates: one entry per sprite key of the
      correspondence, holding (as a duplicate-free sequence, in no promised
      order) the variables of that key's templates. */
  method ExtractVariablesFromPredicates(correspondence: map<string, seq<string>>)
    returns (vars: map<string, seq<string>>)
    ensures vars.Keys == correspondence.Keys
    ensures forall key :: key in vars ==>
      NoDup(vars[key]) && Elems(vars[key]) == VarSet(correspondence[key])
  {
    vars := map[];
    var remaining := correspondence.Keys;
    while remaining != {}
      invariant remaining <= correspondence.Keys
      invariant vars.Keys == correspondence.Keys - remaining
      invariant forall key :: key in vars ==>
        NoDup(vars[key]) && Elems(vars[key]) == VarSet(correspondence[key])
      decreases remaining
    {
      var key :| key in remaining;
      var templates := correspondence[key];
      var variables: seq<string> := [];
      var j := 0;
      while j < |templates|
        invariant 0 <= j <= |templates|
        invariant NoDup(variables)
        invariant Elems(variables) == VarSet(templates[..j])
      {
        assert templates[..j + 1][..j] == templates[..j];
        variables := FindVariables(templates[j], variables);
        j := j + 1;
      }
      assert templates[..j] == templates;
      vars := vars[key := variables];
      remaining := remaining - {key};
    }
  }
}
