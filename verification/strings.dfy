/**
 * The few Python string operations the connection layer relies on:
 * `startswith`, `"sep".join`, substring search, `split`, `lower`,
 * `replace(c, "")`, and `sorted` on a set of strings.
 */
module Strings {
  import opened Errors

  predicate StartsWith(s: string, prefix: string) {
    |prefix| <= |s| && s[..|prefix|] == prefix
  }

  /** `sep.join(parts)` */
  function Join(sep: string, parts: seq<string>): string
    decreases |parts|
  {
    if |parts| == 0 then ""
    else if |parts| == 1 then parts[0]
    else parts[0] + sep + Join(sep, parts[1..])
  }

  predicate OccursAt(s: string, pat: string, j: nat) {
    j + |pat| <= |s| && s[j..j + |pat|] == pat
  }

  /** The first index at or after `from` where `pat` occurs in `s` (`str.find`). */
  function IndexOf(s: string, pat: string, from: nat): (r: Option<nat>)
    requires from <= |s|
    ensures r.Some? ==> from <= r.value && OccursAt(s, pat, r.value)
    ensures forall j: nat :: from <= j && (r.None? || j < r.value) ==> !OccursAt(s, pat, j)
    decreases |s| - from
  {
    if from + |pat| > |s| then None
    else if s[from..from + |pat|] == pat then Some(from)
    else IndexOf(s, pat, from + 1)
  }

  /** `pat in s` for a substring `pat`. */
  predicate Contains(s: string, pat: string) {
    IndexOf(s, pat, 0).Some?
  }

  /** The first index of the character `c` in `s`. */
  function FirstIndex(s: string, c: char): (i: nat)
    requires c in s
    ensures i < |s| && s[i] == c && c !in s[..i]
  {
    if s[0] == c then 0
    else
      assert c in s[1..] by { var k :| 0 <= k < |s| && s[k] == c; assert s[1..][k - 1] == c; }
      var i := 1 + FirstIndex(s[1..], c);
      assert s[..i] == [s[0]] + s[1..][..i - 1];
      i
  }

  /** `s.split(c)`: the pieces between the occurrences of `c`, joined back by `c`. */
  function Split(s: string, c: char): (r: seq<string>)
    ensures |r| >= 1
    ensures forall i :: 0 <= i < |r| ==> c !in r[i]
    ensures Join([c], r) == s
    ensures c !in s ==> r == [s]
    decreases |s|
  {
    if c !in s then [s]
    else
      var i := FirstIndex(s, c);
      var rest := Split(s[i + 1..], c);
      assert s == s[..i] + [c] + s[i + 1..];
      [s[..i]] + rest
  }

  function LowerChar(c: char): char {
    if 'A' <= c <= 'Z' then (c as int + 32) as char else c
  }

  /** `s.lower()`, restricted to the ASCII letters. */
  function Lower(s: string): (r: string)
    ensures |r| == |s|
    ensures forall i :: 0 <= i < |s| ==> r[i] == LowerChar(s[i])
  {
    seq(|s|, i requires 0 <= i < |s| => LowerChar(s[i]))
  }

  /** `s.replace(c, "")` */
  function Remove(s: string, c: char): (r: string)
    ensures c !in r
    ensures forall x :: x in r <==> x in s && x != c
    ensures c !in s ==> r == s
    decreases |s|
  {
    if |s| == 0 then ""
    else if s[0] == c then Remove(s[1..], c)
    else
      assert s == [s[0]] + s[1..];
      [s[0]] + Remove(s[1..], c)
  }

  /** Lower-casing works character by character. */
  lemma LowerAppend(a: string, b: string)
    ensures Lower(a + b) == Lower(a) + Lower(b)
  {
    assert forall i :: 0 <= i < |a + b| ==> Lower(a + b)[i] == (Lower(a) + Lower(b))[i];
  }

  /** Removing a character works piece by piece, keeping the order of what remains. */
  lemma {:induction false} RemoveAppend(a: string, b: string, c: char)
    ensures Remove(a + b, c) == Remove(a, c) + Remove(b, c)
    decreases |a|
  {
    if a == [] {
      assert a + b == b;
    } else {
      assert (a + b)[0] == a[0];
      assert (a + b)[1..] == a[1..] + b;
      RemoveAppend(a[1..], b, c);
    }
  }

  // Python orders strings lexicographically by code point; a proper prefix
  // comes first.

  predicate LexLeq(a: string, b: string)
    decreases |a|
  {
    |a| == 0 || (|b| > 0 && (a[0] < b[0] || (a[0] == b[0] && LexLeq(a[1..], b[1..]))))
  }

  lemma {:induction false} LexLeqTotal(a: string, b: string)
    ensures LexLeq(a, b) || LexLeq(b, a)
    decreases |a|
  {
    if |a| > 0 && |b| > 0 && a[0] == b[0] {
      LexLeqTotal(a[1..], b[1..]);
    }
  }

  lemma {:induction false} LexLeqAntisymmetric(a: string, b: string)
    requires LexLeq(a, b) && LexLeq(b, a)
    ensures a == b
    decreases |a|
  {
    if |a| > 0 {
      LexLeqAntisymmetric(a[1..], b[1..]);
      assert a == [a[0]] + a[1..] && b == [b[0]] + b[1..];
    }
  }

  lemma {:induction false} LexLeqTransitive(a: string, b: string, c: string)
    requires LexLeq(a, b) && LexLeq(b, c)
    ensures LexLeq(a, c)
    decreases |a|
  {
    if |a| > 0 && a[0] == b[0] && b[0] == c[0] {
      LexLeqTransitive(a[1..], b[1..], c[1..]);
    }
  }

  predicate IsLeast(m: string, s: set<string>) {
    m in s && forall x :: x in s ==> LexLeq(m, x)
  }

  lemma {:induction false} LeastExists(s: set<string>)
    requires s != {}
    ensures exists m :: IsLeast(m, s)
    decreases s
  {
    var x :| x in s;
    if s == {x} {
      LexLeqTotal(x, x);
      assert IsLeast(x, s);
    } else {
      LeastExists(s - {x});
      var m :| IsLeast(m, s - {x});
      LexLeqTotal(x, m);
      if LexLeq(x, m) {
        forall y | y in s ensures LexLeq(x, y) {
          if y != x { LexLeqTransitive(x, m, y); } else { LexLeqTotal(x, x); }
        }
        assert IsLeast(x, s);
      } else {
        assert IsLeast(m, s);
      }
    }
  }

  lemma LeastUnique(s: set<string>)
    ensures forall a, b :: IsLeast(a, s) && IsLeast(b, s) ==> a == b
  {
    forall a, b | IsLeast(a, s) && IsLeast(b, s) ensures a == b {
      LexLeqAntisymmetric(a, b);
    }
  }

  predicate StrictlySorted(r: seq<string>) {
    forall i, j :: 0 <= i < j < |r| ==> LexLeq(r[i], r[j]) && r[i] != r[j]
  }

  /** `sorted(s)` for a set of strings. */
  function SortedKeys(s: set<string>): (r: seq<string>)
    ensures StrictlySorted(r)
    ensures forall x :: x in r <==> x in s
    ensures |r| == |s|
    decreases s
  {
    if s == {} then []
    else
      LeastExists(s);
      LeastUnique(s);
      var m :| IsLeast(m, s);
      var rest := SortedKeys(s - {m});
      assert forall j :: 0 <= j < |rest| ==> rest[j] in s - {m};
      [m] + rest
  }

  /** A strictly sorted listing of a set is unique. */
  lemma {:induction false} StrictlySortedUnique(a: seq<string>, b: seq<string>)
    requires StrictlySorted(a) && StrictlySorted(b)
    requires forall x :: x in a <==> x in b
    ensures a == b
    decreases |a|
  {
    if |a| > 0 {
      assert a[0] in b;
      assert |b| > 0;
      assert b[0] in a;
      var i :| 0 <= i < |a| && a[i] == b[0];
      var j :| 0 <= j < |b| && b[j] == a[0];
      if i > 0 && j > 0 {
        LexLeqAntisymmetric(a[0], b[0]);
      }
      assert a[0] == b[0];
      forall x ensures x in a[1..] <==> x in b[1..] {
        if x in a[1..] {
          var k :| 0 <= k < |a| - 1 && a[1..][k] == x;
          assert a[0] != a[k + 1] && a[k + 1] in a;
          assert x in b;
          var m :| 0 <= m < |b| && b[m] == x;
          assert m != 0;
          assert b[1..][m - 1] == x;
        }
        if x in b[1..] {
          var k :| 0 <= k < |b| - 1 && b[1..][k] == x;
          assert b[0] != b[k + 1] && b[k + 1] in b;
          assert x in a;
          var m :| 0 <= m < |a| && a[m] == x;
          assert m != 0;
          assert a[1..][m - 1] == x;
        }
      }
      StrictlySortedUnique(a[1..], b[1..]);
    } else if |b| > 0 {
      FirstIsMember(b);
    }
  }

  lemma FirstIsMember(b: seq<string>)
    requires |b| > 0
    ensures b[0] in b
  {
  }

  /** `a` is `b` with some elements dropped, in the order of `b`. */
  predicate Subsequence(a: seq<string>, b: seq<string>)
    decreases |b|
  {
    |a| == 0 || (|b| > 0 && ((a[0] == b[0] && Subsequence(a[1..], b[1..])) || Subsequence(a, b[1..])))
  }

  /** `[x for x in s if p(x)]` */
  function Filter(s: seq<string>, p: string -> bool): (r: seq<string>)
    ensures forall x :: x in r <==> x in s && p(x)
    ensures Subsequence(r, s)
    ensures StrictlySorted(s) ==> StrictlySorted(r)
    ensures |r| <= |s|
    decreases |s|
  {
    if |s| == 0 then []
    else
      var rest := Filter(s[1..], p);
      assert forall x :: x in s[1..] ==> x in s;
      if p(s[0]) then
        assert StrictlySorted(s) ==> forall j :: 0 <= j < |rest| ==> rest[j] in s[1..];
        [s[0]] + rest
      else rest
  }
}
