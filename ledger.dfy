/** The resource ledger of the cell-based agents: how many resources of each
    type the avatar has picked up, kept up to date from the resource
    observations before and after each move; and the plain resource total
    that RandomAgent compares instead. */
module Ledger {
  import opened Seqs
  import opened Domain

  /** The number of observations of sprite k. */
  function Count(s: seq<ResourceObservation>, k: string): nat
    decreases |s|
  {
    if s == [] then 0
    else Count(s[..|s| - 1], k) + (if s[|s| - 1].sprite == k then 1 else 0)
  }

  lemma CountSnoc(s: seq<ResourceObservation>, o: ResourceObservation, k: string)
    ensures Count(s + [o], k) == Count(s, k) + (if o.sprite == k then 1 else 0)
  {
    assert (s + [o])[..|s|] == s;
  }

  /** The sprite keys of the observations, in order. */
  function Sprites(s: seq<ResourceObservation>): (r: seq<string>)
    ensures |r| == |s| && forall i :: 0 <= i < |s| ==> r[i] == s[i].sprite
  {
    seq(|s|, i requires 0 <= i < |s| => s[i].sprite)
  }

  /** Count is the multiplicity of k among the observed sprites. */
  lemma {:induction false} CountIsMultiplicity(s: seq<ResourceObservation>, k: string)
    ensures Count(s, k) == multiset(Sprites(s))[k]
    decreases |s|
  {
    if s != [] {
      var s' := s[..|s| - 1];
      CountIsMultiplicity(s', k);
      assert Sprites(s) == Sprites(s') + [s[|s| - 1].sprite];
    }
  }

  /** Every observed resource sprite is a key of the map being counted into
      (the source's counter lookup would otherwise unbox a null). */
  predicate SpritesKnown(resources: seq<seq<ResourceObservation>>, keys: set<string>) {
    forall i, j :: 0 <= i < |resources| && 0 <= j < |resources[i]| ==> resources[i][j].sprite in keys
  }

  /** countResourcesStateObservation: every resource observation of sprite k
      adds one to counts[k]. The counter map is returned rather than updated
      in place. */
  method CountResourcesStateObservation(resources: seq<seq<ResourceObservation>>, counts: map<string, int>)
    returns (r: map<string, int>)
    requires SpritesKnown(resources, counts.Keys)
    ensures r.Keys == counts.Keys
    ensures forall k :: k in r ==> r[k] == counts[k] + Count(AllObservations(resources), k)
  {
    r := counts;
    var i := 0;
    while i < |resources|
      invariant i <= |resources|
      invariant r.Keys == counts.Keys
      invariant forall k :: k in r ==> r[k] == counts[k] + Count(AllObservations(resources[..i]), k)
    {
      ghost var done := AllObservations(resources[..i]);
      var j := 0;
      assert done + resources[i][..j] == done;
      while j < |resources[i]|
        invariant j <= |resources[i]|
        invariant r.Keys == counts.Keys
        invariant forall k :: k in r ==> r[k] == counts[k] + Count(done + resources[i][..j], k)
      {
        var obs := resources[i][j];
        var resourceType := obs.sprite;
        forall k | k in r {
          CountPrefixStep(done, resources[i], j, k);
        }
        r := r[resourceType := r[resourceType] + 1];
        j := j + 1;
      }
      assert resources[i][..j] == resources[i];
      assert resources[..i + 1] == resources[..i] + [resources[i]];
      AllObservationsSnoc(resources[..i], resources[i]);
      i := i + 1;
    }
    assert resources[..i] == resources;
  }

  lemma CountPrefixStep(done: seq<ResourceObservation>, col: seq<ResourceObservation>, j: nat, k: string)
    requires j < |col|
    ensures Count(done + col[..j + 1], k) == Count(done + col[..j], k) + (if col[j].sprite == k then 1 else 0)
  {
    assert col[..j + 1] == col[..j] + [col[j]];
    assert done + col[..j + 1] == (done + col[..j]) + [col[j]];
    CountSnoc(done + col[..j], col[j], k);
  }

  /** The resources of type k that disappear between two observations. */
  function Collected(before: seq<seq<ResourceObservation>>, after: seq<seq<ResourceObservation>>, k: string): int {
    Count(AllObservations(before), k) - Count(AllObservations(after), k)
  }

  /** pickedResources, with its keys in their (fixed) iteration order. */
  class ResourceLedger {
    const keys: seq<string>
    var picked: map<string, int>

    ghost predicate Valid()
      reads this
    {
      NoDup(keys) && picked.Keys == Elems(keys)
    }

    /** Every key of the picked-resource templates starts at 0. */
    constructor (info: GameInformation, keys: seq<string>)
      requires NoDup(keys) && Elems(keys) == info.pickedResourcesPredicates.Keys
      ensures Valid() && this.keys == keys
      ensures picked.Keys == info.pickedResourcesPredicates.Keys
      ensures forall k :: k in picked ==> picked[k] == 0
    {
      this.keys := keys;
      picked := map k | k in info.pickedResourcesPredicates :: 0;
    }

    /** updatePickedResources: both states are counted from zero, and every
        key gains what disappeared between them; a negative difference (a
        resource that appeared) is added as it is. */
    method UpdatePickedResources(current: seq<seq<ResourceObservation>>, next: seq<seq<ResourceObservation>>)
      requires Valid()
      requires SpritesKnown(current, Elems(keys)) && SpritesKnown(next, Elems(keys))
      modifies this
      ensures Valid() && picked.Keys == old(picked.Keys)
      ensures forall k :: k in picked ==> picked[k] == old(picked[k]) + Collected(current, next, k)
    {
      var zero := ZeroCounts(keys);
      var currentStateResources := CountResourcesStateObservation(current, zero);
      var nextStateResources := CountResourcesStateObservation(next, zero);
      var updated := picked;
      var i := 0;
      while i < |keys|
        invariant i <= |keys|
        invariant updated.Keys == picked.Keys
        invariant forall j :: 0 <= j < i ==> updated[keys[j]] == picked[keys[j]] + Collected(current, next, keys[j])
        invariant forall j :: i <= j < |keys| ==> updated[keys[j]] == picked[keys[j]]
      {
        var resource := keys[i];
        var numPickedResources := currentStateResources[resource] - nextStateResources[resource];
        updated := updated[resource := updated[resource] + numPickedResources];
        i := i + 1;
      }
      KeysListed(keys, updated, picked, current, next);
      picked := updated;
    }
  }

  /** The counter maps filled with 0 for every key. */
  method ZeroCounts(keys: seq<string>) returns (counts: map<string, int>)
    ensures counts.Keys == Elems(keys)
    ensures forall k :: k in counts ==> counts[k] == 0
  {
    counts := map[];
    var i := 0;
    while i < |keys|
      invariant i <= |keys|
      invariant counts.Keys == Elems(keys[..i])
      invariant forall k :: k in counts ==> counts[k] == 0
    {
      assert keys[..i + 1] == keys[..i] + [keys[i]];
      counts := counts[keys[i] := 0];
      i := i + 1;
    }
    assert keys[..i] == keys;
  }

  lemma KeysListed(keys: seq<string>, updated: map<string, int>, picked: map<string, int>,
                   current: seq<seq<ResourceObservation>>, next: seq<seq<ResourceObservation>>)
    requires picked.Keys == Elems(keys)
    requires forall j :: 0 <= j < |keys| ==>
      (keys[j] in updated && keys[j] in picked &&
       updated[keys[j]] == picked[keys[j]] + Collected(current, next, keys[j]))
    ensures forall k :: k in picked ==> k in updated && updated[k] == picked[k] + Collected(current, next, k)
  {
    forall k | k in picked
      ensures k in updated && updated[k] == picked[k] + Collected(current, next, k)
    {
      assert k in Elems(keys);
      var j :| 0 <= j < |keys| && keys[j] == k;
    }
  }

  // ---------------------------------------------------------------------
  // Over a game

  /** The sum of the per-turn differences of a sequence of (before, after)
      observation pairs. */
  function Accumulated(turns: seq<(seq<seq<ResourceObservation>>, seq<seq<ResourceObservation>>)>, k: string): int
    decreases |turns|
  {
    if turns == [] then 0
    else Accumulated(turns[..|turns| - 1], k) + Collected(turns[|turns| - 1].0, turns[|turns| - 1].1, k)
  }

  /** Each turn starts from the state the previous one ended in. */
  ghost predicate Chained(turns: seq<(seq<seq<ResourceObservation>>, seq<seq<ResourceObservation>>)>) {
    forall i :: 0 <= i < |turns| - 1 ==> turns[i].1 == turns[i + 1].0
  }

  /** When each turn's after-state is the next turn's before-state, a ledger
      started at 0 holds, for each type, the resources present at the start
      less those present at the end. */
  lemma {:induction false} AccumulatedTelescopes(turns: seq<(seq<seq<ResourceObservation>>, seq<seq<ResourceObservation>>)>, k: string)
    requires |turns| > 0 && Chained(turns)
    ensures Accumulated(turns, k) ==
      Count(AllObservations(turns[0].0), k) - Count(AllObservations(turns[|turns| - 1].1), k)
    decreases |turns|
  {
    if |turns| > 1 {
      var ts := turns[..|turns| - 1];
      assert forall i :: 0 <= i < |ts| ==> ts[i] == turns[i];
      assert Chained(ts);
      AccumulatedTelescopes(ts, k);
      assert ts[|ts| - 1].1 == turns[|turns| - 1].0;
    }
  }

  // ---------------------------------------------------------------------
  // The resource total (RandomAgent)

  /** getNumberResources: the sizes of the resource lists, added up. */
  method GetNumberResources(resources: seq<seq<ResourceObservation>>) returns (numResources: int)
    ensures numResources == |AllObservations(resources)|
  {
    numResources := 0;
    var i := 0;
    while i < |resources|
      invariant i <= |resources|
      invariant numResources == |AllObservations(resources[..i])|
    {
      assert resources[..i + 1] == resources[..i] + [resources[i]];
      AllObservationsSnoc(resources[..i], resources[i]);
      numResources := numResources + |resources[i]|;
      i := i + 1;
    }
    assert resources[..i] == resources;
  }

  /** The counts of the given keys, added up. */
  function SumCounts(keys: seq<string>, s: seq<ResourceObservation>): nat
    decreases |keys|
  {
    if keys == [] then 0 else SumCounts(keys[..|keys| - 1], s) + Count(s, keys[|keys| - 1])
  }

  lemma {:induction false} SumCountsSnoc(keys: seq<string>, s: seq<ResourceObservation>, o: ResourceObservation)
    requires NoDup(keys)
    ensures SumCounts(keys, s + [o]) == SumCounts(keys, s) + (if o.sprite in keys then 1 else 0)
    decreases |keys|
  {
    if keys != [] {
      var ks, k := keys[..|keys| - 1], keys[|keys| - 1];
      assert keys == ks + [k];
      NoDupSnoc(ks, k);
      SumCountsSnoc(ks, s, o);
      CountSnoc(s, o, k);
    }
  }

  /** When every observed sprite is one of the (distinct) keys, the counts
      add up to the total. */
  lemma {:induction false} SumCountsTotal(keys: seq<string>, s: seq<ResourceObservation>)
    requires NoDup(keys)
    requires forall i :: 0 <= i < |s| ==> s[i].sprite in keys
    ensures SumCounts(keys, s) == |s|
    decreases |s|
  {
    if s == [] {
      SumCountsEmpty(keys);
    } else {
      var s', o := s[..|s| - 1], s[|s| - 1];
      assert s == s' + [o];
      SumCountsTotal(keys, s');
      SumCountsSnoc(keys, s', o);
    }
  }

  lemma {:induction false} SumCountsEmpty(keys: seq<string>)
    ensures SumCounts(keys, []) == 0
    decreases |keys|
  {
    if keys != [] {
      SumCountsEmpty(keys[..|keys| - 1]);
    }
  }

  lemma {:induction false} SumCountsAgree(keys: seq<string>, a: seq<ResourceObservation>, b: seq<ResourceObservation>)
    requires forall i :: 0 <= i < |keys| ==> Count(a, keys[i]) == Count(b, keys[i])
    ensures SumCounts(keys, a) == SumCounts(keys, b)
    decreases |keys|
  {
    if keys != [] {
      SumCountsAgree(keys[..|keys| - 1], a, b);
    }
  }

  /** The total RandomAgent compares is coarser than the ledger: when the
      totals of two states differ, some resource type's count differs. */
  lemma TotalChangeShowsInLedger(keys: seq<string>, before: seq<seq<ResourceObservation>>,
                                 after: seq<seq<ResourceObservation>>)
    requires NoDup(keys) && SpritesKnown(before, Elems(keys)) && SpritesKnown(after, Elems(keys))
    requires |AllObservations(before)| != |AllObservations(after)|
    ensures exists k :: k in keys && Collected(before, after, k) != 0
  {
    KnownListed(keys, before);
    KnownListed(keys, after);
    SumCountsTotal(keys, AllObservations(before));
    SumCountsTotal(keys, AllObservations(after));
    if forall i :: 0 <= i < |keys| ==> Collected(before, after, keys[i]) == 0 {
      SumCountsAgree(keys, AllObservations(before), AllObservations(after));
      assert false;
    }
  }

  lemma KnownListed(keys: seq<string>, resources: seq<seq<ResourceObservation>>)
    requires SpritesKnown(resources, Elems(keys))
    ensures forall i :: 0 <= i < |AllObservations(resources)| ==> AllObservations(resources)[i].sprite in keys
  {
    var all := AllObservations(resources);
    forall i | 0 <= i < |all|
      ensures all[i].sprite in keys
    {
      AllObservationsMembers(resources, all[i]);
      var p :| 0 <= p < |resources| && all[i] in resources[p];
      var q :| 0 <= q < |resources[p]| && resources[p][q] == all[i];
      assert resources[p][q].sprite in Elems(keys);
    }
  }
}
