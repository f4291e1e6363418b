/** Strings: Go's `<` on names, and the few facts about prefixes and joining that names need. */
module Text {

  predicate Less(a: string, b: string) {
    if b == "" then false
    else if a == "" then true
    else if a[0] != b[0] then a[0] < b[0]
    else Less(a[1..], b[1..])
  }

  lemma {:induction false} LessIrreflexive(a: string)
    ensures !Less(a, a)
  {
    if a != "" { LessIrreflexive(a[1..]); }
  }

  lemma {:induction false} LessTransitive(a: string, b: string, c: string)
    requires Less(a, b) && Less(b, c)
    ensures Less(a, c)
  {
    if a != "" && a[0] == b[0] == c[0] { LessTransitive(a[1..], b[1..], c[1..]); }
  }

  lemma {:induction false} LessTotal(a: string, b: string)
    ensures a == b || Less(a, b) || Less(b, a)
  {
    if a != "" && b != "" && a[0] == b[0] {
      LessTotal(a[1..], b[1..]);
      if a[1..] == b[1..] {
        assert a == [a[0]] + a[1..] && b == [b[0]] + b[1..];
      }
    }
  }

  /** The texts agree before `i`, and there `a` ends or has the smaller character. */
  predicate FirstDifference(a: string, b: string, i: nat) {
    && i <= |a| && i < |b| && (forall j :: 0 <= j < i ==> a[j] == b[j])
    && (i == |a| || a[i] < b[i])
  }

  /** `Less` is the lexicographic order: `a` is a proper prefix of `b`, or smaller at the first
      difference. */
  lemma {:induction false} LessIsLexicographic(a: string, b: string)
    ensures Less(a, b) <==> exists i: nat :: FirstDifference(a, b, i)
    decreases |a|
  {
    if b == "" || a == "" || a[0] != b[0] {
      if Less(a, b) {
        assert FirstDifference(a, b, 0);
      }
    } else {
      LessIsLexicographic(a[1..], b[1..]);
      if Less(a, b) {
        var i: nat :| FirstDifference(a[1..], b[1..], i);
        assert FirstDifference(a, b, i + 1) by {
          forall j | 0 <= j < i + 1 ensures a[j] == b[j] {
            if j > 0 { assert a[1..][j - 1] == b[1..][j - 1]; }
          }
        }
      } else {
        forall i: nat ensures !FirstDifference(a, b, i) {
          if FirstDifference(a, b, i) && i > 0 { assert FirstDifference(a[1..], b[1..], i - 1); }
        }
      }
    }
  }

  predicate StartsWith(s: string, prefix: string) {
    prefix <= s
  }

  /** Equal joins with an equal front have equal backs, and the other way round. */
  lemma CancelFront(front: string, a: string, b: string)
    requires front + a == front + b
    ensures a == b
  {
    assert a == (front + a)[|front|..] && b == (front + b)[|front|..];
  }

  lemma CancelBack(a: string, b: string, back: string)
    requires a + back == b + back
    ensures a == b
  {
    assert |a| == |b|;
    assert a == (a + back)[..|a|] && b == (b + back)[..|b|];
  }

  lemma PeelFront(front: string, a: string, b: string, back: string)
    requires front + a == b + back && |b| >= |front|
    ensures b == front + b[|front|..] && a == b[|front|..] + back
  {
    var s, rest := front + a, b[|front|..];
    assert front == s[..|front|] == (b + back)[..|front|] == b[..|front|];
    assert b == b[..|front|] + rest;
    assert front + (rest + back) == (front + rest) + back;
    CancelFront(front, a, rest + back);
  }

  /** Where a character first occurs; the length when it does not. */
  function IndexOf(s: string, c: char): (i: nat)
    ensures i <= |s| && c !in s[..i] && (i < |s| ==> s[i] == c)
  {
    if s == "" || s[0] == c then 0
    else
      var k := IndexOf(s[1..], c);
      assert s[..k + 1] == [s[0]] + s[1..][..k];
      k + 1
  }

  lemma {:induction false} IndexOfSeparator(a: string, x: string, sep: char)
    requires sep !in a
    ensures IndexOf(a + [sep] + x, sep) == |a|
  {
    if a != "" {
      IndexOfSeparator(a[1..], x, sep);
      assert (a + [sep] + x)[1..] == a[1..] + [sep] + x;
    }
  }

  /** Two texts without the separator are recovered from the join. */
  lemma SplitAtSeparator(a: string, b: string, x: string, y: string, sep: char)
    requires sep !in a && sep !in b
    requires a + [sep] + x == b + [sep] + y
    ensures a == b && x == y
  {
    IndexOfSeparator(a, x, sep);
    IndexOfSeparator(b, y, sep);
    var s, t := a + [sep] + x, b + [sep] + y;
    assert a == s[..|a|] && b == t[..|b|];
    assert x == s[|a| + 1..] && y == t[|b| + 1..];
  }

  /** ASCII `str.lower`, as the buffer service applies it to its environment. */
  function LowerChar(c: char): (r: char)
    ensures 'A' <= c <= 'Z' ==> 'a' <= r <= 'z' && r as int - 'a' as int == c as int - 'A' as int
    ensures !('A' <= c <= 'Z') ==> r == c
  {
    if 'A' <= c <= 'Z' then ((c as int) + 32) as char else c
  }

  function Lower(s: string): (r: string)
    ensures |r| == |s| && forall i :: 0 <= i < |s| ==> r[i] == LowerChar(s[i])
  {
    if s == "" then "" else [LowerChar(s[0])] + Lower(s[1..])
  }

  predicate IsLower(s: string) {
    forall i :: 0 <= i < |s| ==> !('A' <= s[i] <= 'Z')
  }

  lemma LowerFixesLower(s: string)
    ensures Lower(s) == s <==> IsLower(s)
  {
    if IsLower(s) {
      assert forall i :: 0 <= i < |s| ==> Lower(s)[i] == s[i];
    } else {
      var i :| 0 <= i < |s| && 'A' <= s[i] <= 'Z';
      assert Lower(s)[i] != s[i];
    }
  }
}
