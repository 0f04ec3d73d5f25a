/** Optional values, used where the source works with a possibly-absent
    (null) reference. */
module Options {
  datatype Option<+T> = None | Some(value: T)
}

/** Sequences used as duplicate-free enumerations of sets, and the
    first-insertion-order deduplication that a LinkedHashSet performs. */
module Seqs {

  /** No element occurs twice. */
  ghost predicate NoDup<T>(s: seq<T>) {
    forall i, j :: 0 <= i < j < |s| ==> s[i] != s[j]
  }

  /** The set of elements of a sequence. */
  function Elems<T>(s: seq<T>): set<T> {
    set x | x in s
  }

  /** Adding to an insertion-ordered set: a new element goes to the end,
      an element already present leaves the set unchanged. */
  function Insert<T(==)>(d: seq<T>, a: T): seq<T> {
    if a in d then d else d + [a]
  }

  /** Insert adds a to the elements and keeps them duplicate-free. */
  lemma InsertElems<T>(d: seq<T>, a: T)
    ensures a in Insert(d, a) && Elems(Insert(d, a)) == Elems(d) + {a}
    ensures NoDup(d) ==> NoDup(Insert(d, a))
  {
  }

  /** The insertion-ordered set obtained by adding the elements of s in order. */
  function Dedup<T(==)>(s: seq<T>): seq<T>
    decreases |s|
  {
    if s == [] then [] else Insert(Dedup(s[..|s| - 1]), s[|s| - 1])
  }

  /** Deduplicating one more element inserts it. */
  lemma DedupSnoc<T>(s: seq<T>, a: T)
    ensures Dedup(s + [a]) == Insert(Dedup(s), a)
  {
    assert (s + [a])[..|s|] == s;
  }

  /** Adding the elements of s, in order, to an insertion-ordered set. */
  function InsertAll<T(==)>(d: seq<T>, s: seq<T>): seq<T>
    decreases |s|
  {
    if s == [] then d else Insert(InsertAll(d, s[..|s| - 1]), s[|s| - 1])
  }

  lemma InsertAllSnoc<T>(d: seq<T>, s: seq<T>, a: T)
    ensures InsertAll(d, s + [a]) == Insert(InsertAll(d, s), a)
  {
    assert (s + [a])[..|s|] == s;
  }

  /** Deduplicating a concatenation adds the second part to the
      deduplication of the first. */
  lemma {:induction false} DedupConcat<T>(a: seq<T>, b: seq<T>)
    ensures Dedup(a + b) == InsertAll(Dedup(a), b)
    decreases |b|
  {
    if b == [] {
      assert a + b == a;
    } else {
      var b' := b[..|b| - 1];
      var e := b[|b| - 1];
      DedupConcat(a, b');
      assert a + b == (a + b') + [e];
      DedupSnoc(a + b', e);
    }
  }

  lemma AppendAssoc<T>(a: seq<T>, b: seq<T>, c: seq<T>)
    ensures (a + b) + c == a + (b + c)
  {
  }

  /** f applied to every element, in order. */
  function Map<A, B>(f: A -> B, s: seq<A>): (r: seq<B>)
    ensures |r| == |s|
    ensures forall i :: 0 <= i < |s| ==> r[i] == f(s[i])
  {
    seq(|s|, i requires 0 <= i < |s| => f(s[i]))
  }

  lemma MapConcat<A, B>(f: A -> B, a: seq<A>, b: seq<A>)
    ensures Map(f, a + b) == Map(f, a) + Map(f, b)
  {
    assert forall i :: 0 <= i < |a| ==> (a + b)[i] == a[i];
    assert forall i :: |a| <= i < |a + b| ==> (a + b)[i] == b[i - |a|];
  }

  /** Adding a concatenation adds its two parts one after the other. */
  lemma {:induction false} InsertAllConcat<T>(d: seq<T>, a: seq<T>, b: seq<T>)
    ensures InsertAll(d, a + b) == InsertAll(InsertAll(d, a), b)
    decreases |b|
  {
    if b == [] {
      assert a + b == a;
    } else {
      var b', e := b[..|b| - 1], b[|b| - 1];
      assert a + b == (a + b') + [e];
      assert b == b' + [e];
      InsertAllConcat(d, a, b');
      InsertAllSnoc(d, a + b', e);
      InsertAllSnoc(InsertAll(d, a), b', e);
    }
  }

  /** The concatenation f(0) + f(1) + ... + f(n - 1). */
  function Flatten<T>(f: nat -> seq<T>, n: nat): seq<T> {
    if n == 0 then [] else Flatten(f, n - 1) + f(n - 1)
  }

  /** An element of a concatenation comes from one of its parts. */
  lemma {:induction false} FlattenMembers<T>(f: nat -> seq<T>, n: nat, e: T)
    ensures e in Flatten(f, n) <==> exists k :: 0 <= k < n && e in f(k)
  {
    if n > 0 {
      FlattenMembers(f, n - 1, e);
    }
  }

  /** The concatenation f(s[0]) + f(s[1]) + ... of the parts of the
      elements of s. */
  function ConcatMap<A, B>(f: A -> seq<B>, s: seq<A>): seq<B>
    decreases |s|
  {
    if s == [] then [] else ConcatMap(f, s[..|s| - 1]) + f(s[|s| - 1])
  }

  lemma ConcatMapSnoc<A, B>(f: A -> seq<B>, s: seq<A>, a: A)
    ensures ConcatMap(f, s + [a]) == ConcatMap(f, s) + f(a)
  {
    assert (s + [a])[..|s|] == s;
  }

  lemma {:induction false} ConcatMapConcat<A, B>(f: A -> seq<B>, a: seq<A>, b: seq<A>)
    ensures ConcatMap(f, a + b) == ConcatMap(f, a) + ConcatMap(f, b)
    decreases |b|
  {
    if b == [] {
      assert a + b == a;
    } else {
      var b', e := b[..|b| - 1], b[|b| - 1];
      assert a + b == (a + b') + [e];
      ConcatMapSnoc(f, a + b', e);
      ConcatMapConcat(f, a, b');
    }
  }

  /** An element of the concatenation comes from the part of some element. */
  lemma {:induction false} ConcatMapMembers<A, B>(f: A -> seq<B>, s: seq<A>, e: B)
    ensures e in ConcatMap(f, s) <==> exists k :: 0 <= k < |s| && e in f(s[k])
    decreases |s|
  {
    if s != [] {
      var s' := s[..|s| - 1];
      ConcatMapMembers(f, s', e);
      assert forall k :: 0 <= k < |s'| ==> s'[k] == s[k];
    }
  }

  /** The position of the first occurrence of a in s. */
  function FirstIndex<T(==)>(s: seq<T>, a: T): (r: nat)
    requires a in s
    ensures r < |s| && s[r] == a
    ensures forall j :: 0 <= j < r ==> s[j] != a
  {
    if s[0] == a then 0 else 1 + FirstIndex(s[1..], a)
  }

  /** Deduplication keeps exactly the elements of its input, once each. */
  lemma {:induction false} DedupElems<T>(s: seq<T>)
    ensures NoDup(Dedup(s))
    ensures Elems(Dedup(s)) == Elems(s)
    decreases |s|
  {
    if s != [] {
      var p := s[..|s| - 1];
      DedupElems(p);
      InsertElems(Dedup(p), s[|s| - 1]);
      assert s == p + [s[|s| - 1]];
      assert Elems(s) == Elems(p) + {s[|s| - 1]};
    }
  }

  /** Deduplication never makes a sequence longer. */
  lemma {:induction false} DedupLength<T>(s: seq<T>)
    ensures |Dedup(s)| <= |s|
    decreases |s|
  {
    if s != [] {
      DedupLength(s[..|s| - 1]);
    }
  }

  /** A sequence that is already duplicate-free is its own deduplication. */
  lemma {:induction false} DedupOfNoDup<T>(s: seq<T>)
    requires NoDup(s)
    ensures Dedup(s) == s
    decreases |s|
  {
    if s != [] {
      var p, a := s[..|s| - 1], s[|s| - 1];
      assert s == p + [a];
      NoDupSnoc(p, a);
      DedupOfNoDup(p);
    }
  }

  /** A duplicate-free sequence has as many elements as its set. */
  lemma {:induction false} NoDupCard<T>(s: seq<T>)
    requires NoDup(s)
    ensures |Elems(s)| == |s|
    decreases |s|
  {
    if s != [] {
      var p, a := s[..|s| - 1], s[|s| - 1];
      assert s == p + [a];
      NoDupSnoc(p, a);
      NoDupCard(p);
      assert Elems(s) == Elems(p) + {a};
      assert a !in Elems(p);
    }
  }

  lemma NoDupSnoc<T>(p: seq<T>, a: T)
    requires NoDup(p + [a])
    ensures NoDup(p) && a !in p
  {
    assert forall i :: 0 <= i < |p| ==> (p + [a])[i] == p[i];
    assert (p + [a])[|p|] == a;
  }

  lemma FirstIndexOfPrefix<T>(p: seq<T>, a: T, b: T)
    requires a in p
    ensures FirstIndex(p + [b], a) == FirstIndex(p, a)
  {
    var k := FirstIndex(p, a);
    assert (p + [b])[k] == a;
  }

  /** Deduplication keeps the order of first occurrences: an element that
      comes earlier in the result was first inserted earlier. */
  lemma {:induction false} DedupFirstOrder<T>(s: seq<T>)
    ensures forall i, j :: 0 <= i < j < |Dedup(s)| ==>
      Dedup(s)[i] in s && Dedup(s)[j] in s &&
      FirstIndex(s, Dedup(s)[i]) < FirstIndex(s, Dedup(s)[j])
    decreases |s|
  {
    DedupElems(s);
    if s != [] {
      var p := s[..|s| - 1];
      var a := s[|s| - 1];
      var d := Dedup(p);
      DedupFirstOrder(p);
      DedupElems(p);
      assert s == p + [a];
      forall e | e in d
        ensures e in p && FirstIndex(s, e) == FirstIndex(p, e)
      {
        assert e in Elems(d);
        FirstIndexOfPrefix(p, e, a);
      }
      if a !in d {
        assert a !in p by { assert a !in Elems(p); }
        assert FirstIndex(s, a) == |p|;
        forall i, j | 0 <= i < j < |Dedup(s)|
          ensures FirstIndex(s, Dedup(s)[i]) < FirstIndex(s, Dedup(s)[j])
        {
          assert Dedup(s) == d + [a];
          if j < |d| {
            assert Dedup(s)[i] == d[i] && Dedup(s)[j] == d[j];
          } else {
            assert Dedup(s)[i] == d[i];
            assert FirstIndex(s, d[i]) == FirstIndex(p, d[i]) < |p|;
          }
        }
      }
    }
  }
}
