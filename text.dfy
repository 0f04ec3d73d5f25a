/** The string operations the agents use: Java's String.replace (every
    non-overlapping literal occurrence, left to right), String.contains,
    ASCII toUpperCase, the %d conversion of String.format and String.join. */
module Text {

  // ---------------------------------------------------------------------
  // Upper case

  function UpperChar(c: char): char {
    if 'a' <= c <= 'z' then (c as int - 32) as char else c
  }

  /** ASCII upper-casing, character by character. */
  function Upper(s: string): (r: string)
    ensures |r| == |s|
    decreases |s|
  {
    if s == [] then [] else [UpperChar(s[0])] + Upper(s[1..])
  }

  /** Each character is upper-cased on its own. */
  lemma {:induction false} UpperIndex(s: string)
    ensures forall i :: 0 <= i < |s| ==> Upper(s)[i] == UpperChar(s[i])
    decreases |s|
  {
    if s != [] {
      UpperIndex(s[1..]);
      assert forall i :: 1 <= i < |s| ==> Upper(s)[i] == Upper(s[1..])[i - 1];
    }
  }

  lemma UpperConcat(a: string, b: string)
    ensures Upper(a + b) == Upper(a) + Upper(b)
  {
    UpperIndex(a);
    UpperIndex(b);
    UpperIndex(a + b);
    assert forall i :: 0 <= i < |a + b| ==> Upper(a + b)[i] == (Upper(a) + Upper(b))[i];
  }

  /** A string without lower-case letters is left unchanged. */
  lemma UpperNoLower(s: string)
    requires NoLower(s)
    ensures Upper(s) == s
  {
    UpperIndex(s);
    assert forall i :: 0 <= i < |s| ==> Upper(s)[i] == s[i];
  }

  /** The string holds no lower-case letter. */
  predicate NoLower(s: string) {
    forall i :: 0 <= i < |s| ==> !('a' <= s[i] <= 'z')
  }

  lemma UpperIsUpper(s: string)
    ensures NoLower(Upper(s))
  {
    UpperIndex(s);
  }

  // ---------------------------------------------------------------------
  // Substring search and replacement

  /** s[i..i+|t|] is an occurrence of t. */
  ghost predicate OccursAt(s: string, t: string, i: int) {
    0 <= i && i + |t| <= |s| && s[i..i + |t|] == t
  }

  /** String.contains. */
  function Contains(s: string, t: string): bool
    decreases |s|
  {
    if t <= s then true else if s == [] then false else Contains(s[1..], t)
  }

  /** Contains is true exactly when t occurs somewhere in s. */
  lemma {:induction false} ContainsIff(s: string, t: string)
    ensures Contains(s, t) <==> exists i :: OccursAt(s, t, i)
    decreases |s|
  {
    if t <= s {
      assert OccursAt(s, t, 0);
    } else if s != [] {
      ContainsIff(s[1..], t);
      if Contains(s[1..], t) {
        var i :| OccursAt(s[1..], t, i);
        assert s[i + 1..i + 1 + |t|] == s[1..][i..i + |t|];
        assert OccursAt(s, t, i + 1);
      } else {
        forall i | OccursAt(s, t, i) && i > 0 ensures OccursAt(s[1..], t, i - 1) {
          assert s[1..][i - 1..i - 1 + |t|] == s[i..i + |t|];
        }
      }
    }
  }

  /** Java's "".equals(target) case of replace: the replacement goes before
      every character and at the end. */
  function InsertAround(s: string, r: string): string
    decreases |s|
  {
    if s == [] then r else r + [s[0]] + InsertAround(s[1..], r)
  }

  /** String.replace(target, replacement). */
  function Replace(s: string, target: string, replacement: string): string
    decreases |s|
  {
    if |target| == 0 then InsertAround(s, replacement)
    else if |s| < |target| then s
    else if s[..|target|] == target then replacement + Replace(s[|target|..], target, replacement)
    else [s[0]] + Replace(s[1..], target, replacement)
  }

  /** Replacing a target that does not occur changes nothing. */
  lemma {:induction false} ReplaceAbsent(s: string, target: string, replacement: string)
    requires |target| > 0 && !Contains(s, target)
    ensures Replace(s, target, replacement) == s
    decreases |s|
  {
    if |s| >= |target| {
      assert !(target <= s);
      assert s[..|target|] != target;
      ReplaceAbsent(s[1..], target, replacement);
      assert [s[0]] + s[1..] == s;
    }
  }

  /** Replacing a single character distributes over concatenation. */
  lemma {:induction false} ReplaceCharConcat(a: string, b: string, c: char, replacement: string)
    ensures Replace(a + b, [c], replacement) == Replace(a, [c], replacement) + Replace(b, [c], replacement)
    decreases |a|
  {
    if a != [] {
      assert (a + b)[1..] == a[1..] + b;
      assert (a + b)[..1] == a[..1];
      ReplaceCharConcat(a[1..], b, c, replacement);
    } else {
      assert a + b == b;
    }
  }

  /** Replacing a character that does not occur changes nothing. */
  lemma {:induction false} ReplaceCharAbsent(s: string, c: char, replacement: string)
    requires c !in s
    ensures Replace(s, [c], replacement) == s
    decreases |s|
  {
    if s != [] {
      assert s[..1] == [s[0]];
      ReplaceCharAbsent(s[1..], c, replacement);
      assert [s[0]] + s[1..] == s;
    }
  }

  /** .replace("?", ""): the marker that starts a placeholder is dropped. */
  function StripMarker(s: string): string {
    Replace(s, "?", "")
  }

  /** StripMarker deletes exactly the '?' characters. */
  lemma {:induction false} StripMarkerDeletes(s: string)
    ensures '?' !in StripMarker(s)
    ensures forall c :: c != '?' ==> (c in s <==> c in StripMarker(s))
    decreases |s|
  {
    if s != [] {
      StripMarkerDeletes(s[1..]);
      assert s[..1] == [s[0]];
      assert s == [s[0]] + s[1..];
    }
  }

  lemma StripMarkerConcat(a: string, b: string)
    ensures StripMarker(a + b) == StripMarker(a) + StripMarker(b)
  {
    ReplaceCharConcat(a, b, '?', "");
  }

  lemma StripMarkerAbsent(s: string)
    requires '?' !in s
    ensures StripMarker(s) == s
  {
    ReplaceCharAbsent(s, '?', "");
  }

  /** The normal form every rendered atom goes through: '?' removed, then
      upper-cased. */
  function Norm(s: string): string {
    Upper(StripMarker(s))
  }

  lemma NormConcat(a: string, b: string)
    ensures Norm(a + b) == Norm(a) + Norm(b)
  {
    StripMarkerConcat(a, b);
    UpperConcat(StripMarker(a), StripMarker(b));
  }

  /** Cutting two strings at the first occurrence of a separator that
      neither head contains. */
  lemma SplitAtSeparator(a1: string, r1: string, a2: string, r2: string, c: char)
    requires c !in a1 && c !in a2
    requires a1 + ([c] + r1) == a2 + ([c] + r2)
    ensures a1 == a2 && r1 == r2
  {
    var s := a1 + ([c] + r1);
    assert forall i :: 0 <= i < |a1| ==> s[i] == a1[i];
    assert forall i :: 0 <= i < |a2| ==> s[i] == (a2 + ([c] + r2))[i] == a2[i];
    assert s[|a1|] == c && (a2 + ([c] + r2))[|a2|] == c;
    assert |a1| == |a2|;
    assert a1 == s[..|a1|] == a2;
    assert r1 == s[|a1| + 1..] == r2;
  }

  predicate IsLetter(c: char) {
    'a' <= c <= 'z' || 'A' <= c <= 'Z'
  }

  // ---------------------------------------------------------------------
  // Decimal rendering of integers (the %d conversion)

  predicate IsDigit(c: char) {
    '0' <= c <= '9'
  }

  function DigitChar(d: nat): (c: char)
    requires d < 10
    ensures IsDigit(c)
  {
    ('0' as int + d) as char
  }

  function DigitValue(c: char): nat
    requires IsDigit(c)
  {
    c as int - '0' as int
  }

  function NatToString(n: nat): (s: string)
    ensures |s| > 0
  {
    if n < 10 then [DigitChar(n)] else NatToString(n / 10) + [DigitChar(n % 10)]
  }

  /** The decimal rendering is made of digits only. */
  lemma {:induction false} NatToStringDigits(n: nat)
    ensures forall i :: 0 <= i < |NatToString(n)| ==> IsDigit(NatToString(n)[i])
  {
    if n >= 10 {
      NatToStringDigits(n / 10);
    }
  }

  /** %d: a leading '-' for negative numbers, then the decimal digits. */
  function IntToString(i: int): string {
    if i < 0 then "-" + NatToString(-i) else NatToString(i)
  }

  /** Reads back a string of decimal digits (a non-digit counts as 0). */
  function ParseNat(s: string): nat
    decreases |s|
  {
    if s == [] then 0
    else ParseNat(s[..|s| - 1]) * 10 + (if IsDigit(s[|s| - 1]) then DigitValue(s[|s| - 1]) else 0)
  }

  lemma {:induction false} ParseNatToString(n: nat)
    ensures ParseNat(NatToString(n)) == n
  {
    if n >= 10 {
      var s := NatToString(n / 10) + [DigitChar(n % 10)];
      assert s[..|s| - 1] == NatToString(n / 10);
      ParseNatToString(n / 10);
    }
  }

  /** Every character of a rendered integer is a digit or the minus sign. */
  lemma IntToStringChars(i: int)
    ensures forall k :: 0 <= k < |IntToString(i)| ==> IsDigit(IntToString(i)[k]) || IntToString(i)[k] == '-'
    ensures |IntToString(i)| > 0
  {
    NatToStringDigits(if i < 0 then -i else i);
  }

  /** A rendered integer holds no marker, underscore or space. */
  lemma IntToStringNoSeparators(i: int)
    ensures '?' !in IntToString(i) && '_' !in IntToString(i) && ' ' !in IntToString(i)
  {
    IntToStringChars(i);
  }

  lemma LeadingMinus(i: int)
    ensures |IntToString(i)| > 0 && (IntToString(i)[0] == '-' <==> i < 0)
  {
    if i >= 0 {
      NatToStringDigits(i);
      assert IsDigit(NatToString(i)[0]);
    }
  }

  /** Different integers render differently, so the rendering can be read back. */
  lemma IntToStringInjective(i: int, j: int)
    requires IntToString(i) == IntToString(j)
    ensures i == j
  {
    if i < 0 && j < 0 {
      assert NatToString(-i) == IntToString(i)[1..] == IntToString(j)[1..] == NatToString(-j);
      ParseNatToString(-i);
      ParseNatToString(-j);
    } else if i >= 0 && j >= 0 {
      ParseNatToString(i);
      ParseNatToString(j);
    } else {
      LeadingMinus(i);
      LeadingMinus(j);
      assert false;
    }
  }

  /** A rendered integer is its own normal form. */
  lemma NormIntToString(i: int)
    ensures Norm(IntToString(i)) == IntToString(i)
  {
    IntToStringChars(i);
    StripMarkerAbsent(IntToString(i));
    UpperNoLower(IntToString(i));
  }

  // ---------------------------------------------------------------------
  // String.join

  function Join(sep: string, parts: seq<string>): string
    decreases |parts|
  {
    if |parts| == 0 then ""
    else if |parts| == 1 then parts[0]
    else Join(sep, parts[..|parts| - 1]) + sep + parts[|parts| - 1]
  }

  /** Joining a concatenation joins the two halves with one more separator. */
  lemma {:induction false} JoinAppend(sep: string, a: seq<string>, b: seq<string>)
    requires |a| > 0 && |b| > 0
    ensures Join(sep, a + b) == Join(sep, a) + sep + Join(sep, b)
    decreases |b|
  {
    if |b| == 1 {
      assert (a + b)[..|a + b| - 1] == a;
    } else {
      var b' := b[..|b| - 1];
      assert (a + b)[..|a + b| - 1] == a + b';
      JoinAppend(sep, a, b');
    }
  }

  lemma JoinSnoc(sep: string, parts: seq<string>, p: string)
    requires |parts| > 0
    ensures Join(sep, parts + [p]) == Join(sep, parts) + sep + p
  {
    assert (parts + [p])[..|parts|] == parts;
  }

  /** Joining strings without lower-case letters gives one. */
  lemma {:induction false} JoinNoLower(sep: string, parts: seq<string>)
    requires NoLower(sep)
    requires forall i :: 0 <= i < |parts| ==> NoLower(parts[i])
    ensures NoLower(Join(sep, parts))
    decreases |parts|
  {
    if |parts| > 1 {
      var ps := parts[..|parts| - 1];
      JoinNoLower(sep, ps);
      var a, b := Join(sep, ps) + sep, parts[|parts| - 1];
      assert forall i :: 0 <= i < |a| ==> (a + b)[i] == a[i];
      assert forall i :: |a| <= i < |a + b| ==> (a + b)[i] == b[i - |a|];
    }
  }

  /** The "(%s)" wrapping of String.join(" ", atoms): a state is rendered as
      one parenthesised, space-separated list. */
  function Render(atoms: seq<string>): string {
    "(" + Join(" ", atoms) + ")"
  }

  /** A state made of atoms without lower-case letters has none. */
  lemma RenderNoLower(atoms: seq<string>)
    requires forall i :: 0 <= i < |atoms| ==> NoLower(atoms[i])
    ensures NoLower(Render(atoms))
  {
    JoinNoLower(" ", atoms);
    var j := Join(" ", atoms);
    assert forall i :: 1 <= i < 1 + |j| ==> Render(atoms)[i] == j[i - 1];
  }

  /** Every part normalised. */
  function NormAll(parts: seq<string>): (r: seq<string>)
    ensures |r| == |parts|
    ensures forall i :: 0 <= i < |parts| ==> r[i] == Norm(parts[i])
  {
    seq(|parts|, i requires 0 <= i < |parts| => Norm(parts[i]))
  }

  /** Normalising a space-separated list normalises each part: a part is
      never rewritten beyond '?' removal and upper-casing. */
  lemma {:induction false} NormJoin(parts: seq<string>)
    ensures Norm(Join(" ", parts)) == Join(" ", NormAll(parts))
    decreases |parts|
  {
    if |parts| == 1 {
      assert NormAll(parts) == [Norm(parts[0])];
    } else if |parts| > 1 {
      var ps, p := parts[..|parts| - 1], parts[|parts| - 1];
      NormJoin(ps);
      assert NormAll(parts)[..|parts| - 1] == NormAll(ps);
      NormConcat(Join(" ", ps) + " ", p);
      NormConcat(Join(" ", ps), " ");
      StripMarkerAbsent(" ");
      UpperNoLower(" ");
    }
  }

  /** Normalising a rendered list renders the normalised parts. */
  lemma NormRender(parts: seq<string>)
    ensures Norm(Render(parts)) == Render(NormAll(parts))
  {
    NormJoin(parts);
    NormConcat("(" + Join(" ", parts), ")");
    NormConcat("(", Join(" ", parts));
    StripMarkerAbsent("(");
    UpperNoLower("(");
    StripMarkerAbsent(")");
    UpperNoLower(")");
  }
}
