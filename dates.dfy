/**
  Date keys are "YYYY-MM-DD" strings compared as JavaScript compares strings:
  character by character, a proper prefix coming first. The export range keeps
  the index entries between two such keys, inclusive, in the index's order.
 */
module Dates {

  /** JavaScript's `a <= b` on strings; a prefix comes first. */
  predicate LexLe(a: string, b: string)
    ensures a <= b ==> LexLe(a, b)
  {
    a == [] || (b != [] && (a[0] < b[0] || (a[0] == b[0] && LexLe(a[1..], b[1..]))))
  }

  lemma {:induction false} LexLeReflexive(a: string)
    ensures LexLe(a, a)
  {
    if a != [] {
      LexLeReflexive(a[1..]);
    }
  }

  lemma {:induction false} LexLeAntisymmetric(a: string, b: string)
    requires LexLe(a, b) && LexLe(b, a)
    ensures a == b
  {
    if a != [] && b != [] {
      LexLeAntisymmetric(a[1..], b[1..]);
      assert a == [a[0]] + a[1..];
      assert b == [b[0]] + b[1..];
    }
  }

  lemma {:induction false} LexLeTransitive(a: string, b: string, c: string)
    requires LexLe(a, b) && LexLe(b, c)
    ensures LexLe(a, c)
  {
    if a != [] && b != [] && c != [] && a[0] == b[0] == c[0] {
      LexLeTransitive(a[1..], b[1..], c[1..]);
    }
  }

  lemma {:induction false} LexLeTotal(a: string, b: string)
    ensures LexLe(a, b) || LexLe(b, a)
  {
    if a != [] && b != [] && a[0] == b[0] {
      LexLeTotal(a[1..], b[1..]);
    }
  }

  /** Keys sharing a prefix compare as their remainders do. */
  lemma {:induction false} LexLeCommonPrefix(p: string, a: string, b: string)
    ensures LexLe(p + a, p + b) <==> LexLe(a, b)
  {
    if p != [] {
      assert (p + a)[0] == p[0] && (p + b)[0] == p[0];
      assert (p + a)[1..] == p[1..] + a;
      assert (p + b)[1..] == p[1..] + b;
      LexLeCommonPrefix(p[1..], a, b);
    } else {
      assert p + a == a && p + b == b;
    }
  }

  /**
    The first differing character decides, whatever the lengths of the two keys:
    "2024-10-01" comes before "2024-9-30".
   */
  lemma {:induction false} LexLeFirstDifference(a: string, b: string, i: nat)
    requires i < |a| && i < |b| && a[..i] == b[..i] && a[i] < b[i]
    ensures LexLe(a, b) && !LexLe(b, a)
  {
    var p := a[..i];
    assert a == p + a[i..];
    assert b == p + b[i..];
    LexLeCommonPrefix(p, a[i..], b[i..]);
    LexLeCommonPrefix(p, b[i..], a[i..]);
  }

  predicate InRange(d: string, start: string, end: string)
  {
    LexLe(start, d) && LexLe(d, end)
  }

  /** `index.filter(d => d >= start && d <= end)`. */
  function SelectDates(index: seq<string>, start: string, end: string): (r: seq<string>)
    ensures |r| <= |index|
    ensures forall d :: d in r <==> d in index && InRange(d, start, end)
  {
    if index == [] then []
    else (if InRange(index[0], start, end) then [index[0]] else []) + SelectDates(index[1..], start, end)
  }

  /** Selection keeps the index's order: it distributes over concatenation. */
  lemma {:induction false} SelectDatesAppend(a: seq<string>, b: seq<string>, start: string, end: string)
    ensures SelectDates(a + b, start, end) == SelectDates(a, start, end) + SelectDates(b, start, end)
  {
    if a == [] {
      assert a + b == b;
    } else {
      assert (a + b)[1..] == a[1..] + b;
      SelectDatesAppend(a[1..], b, start, end);
    }
  }

  lemma SelectDatesSingle(d: string, start: string, end: string)
    ensures SelectDates([d], start, end) == if InRange(d, start, end) then [d] else []
  {
    assert [d][1..] == [];
  }

  /** When start lies after end nothing is selected. */
  lemma EmptyRangeSelectsNothing(index: seq<string>, start: string, end: string)
    requires !LexLe(start, end)
    ensures SelectDates(index, start, end) == []
  {
    var r := SelectDates(index, start, end);
    if r != [] {
      assert r[0] in r;
      LexLeTransitive(start, r[0], end);
    }
  }
}
