/**
 * The plain string filters the calculator controller applies to label text:
 * counting a character, removing every occurrence of a character (the
 * `replacingOccurrences(of:with: "")` and `filter` calls) and a substring test
 * (`String.contains`).
 */
module Strings {

  /** Number of occurrences of `c` in `s`. */
  function Count(s: string, c: char): (n: nat)
    ensures n <= |s|
  {
    if s == [] then 0 else (if s[0] == c then 1 else 0) + Count(s[1..], c)
  }

  /** Counting distributes over concatenation. */
  lemma {:induction false} CountAppend(a: string, b: string, c: char)
    ensures Count(a + b, c) == Count(a, c) + Count(b, c)
  {
    if a == [] {
      assert a + b == b;
    } else {
      assert (a + b)[0] == a[0] && (a + b)[1..] == a[1..] + b;
      CountAppend(a[1..], b, c);
    }
  }

  /** A one-character text counts one exactly when it is that character. */
  lemma CountSingle(x: char, c: char)
    ensures Count([x], c) == if x == c then 1 else 0
  {
    assert [x][1..] == [];
  }

  /** A character occurs nowhere exactly when its count is zero. */
  lemma {:induction false} CountZeroIff(s: string, c: char)
    ensures Count(s, c) == 0 <==> c !in s
  {
    if s != [] {
      CountZeroIff(s[1..], c);
      assert s == [s[0]] + s[1..];
    }
  }

  /** `sub` is `s` with some characters taken out, the rest kept in order. */
  predicate IsSubsequence(sub: string, s: string)
  {
    sub == [] ||
    (s != [] && ((sub[0] == s[0] && IsSubsequence(sub[1..], s[1..])) || IsSubsequence(sub, s[1..])))
  }

  /** `s` with every occurrence of `c` taken out, the other characters kept in order. */
  function RemoveAll(s: string, c: char): (r: string)
    ensures c !in r
    ensures forall x :: x in r <==> x in s && x != c
    ensures IsSubsequence(r, s)
    ensures |r| + Count(s, c) == |s|
  {
    if s == [] then []
    else if s[0] == c then RemoveAll(s[1..], c)
    else [s[0]] + RemoveAll(s[1..], c)
  }

  /** A subsequence that avoids `c` is at most as long as `s` without its `c`s. */
  lemma {:induction false} SubsequenceAvoidingLength(sub: string, s: string, c: char)
    requires IsSubsequence(sub, s) && c !in sub
    ensures |sub| + Count(s, c) <= |s|
  {
    if s != [] {
      if sub != [] && sub[0] == s[0] && IsSubsequence(sub[1..], s[1..]) {
        assert sub == [sub[0]] + sub[1..];
        SubsequenceAvoidingLength(sub[1..], s[1..], c);
      } else {
        SubsequenceAvoidingLength(sub, s[1..], c);
      }
    }
  }

  /**
   * The contract of `RemoveAll` pins its result down: the only subsequence of
   * `s` that avoids `c` and is as long as `s` without its `c`s is `RemoveAll(s, c)`.
   */
  lemma {:induction false} RemoveAllUnique(s: string, c: char, r: string)
    requires IsSubsequence(r, s) && c !in r && |r| + Count(s, c) == |s|
    ensures r == RemoveAll(s, c)
  {
    if s != [] {
      if s[0] == c {
        RemoveAllUnique(s[1..], c, r);
      } else if r != [] && r[0] == s[0] && IsSubsequence(r[1..], s[1..]) {
        assert r == [r[0]] + r[1..];
        RemoveAllUnique(s[1..], c, r[1..]);
      } else {
        SubsequenceAvoidingLength(r, s[1..], c);
      }
    }
  }

  /** Removal distributes over concatenation. */
  lemma {:induction false} RemoveAllAppend(a: string, b: string, c: char)
    ensures RemoveAll(a + b, c) == RemoveAll(a, c) + RemoveAll(b, c)
  {
    if a == [] {
      assert a + b == b;
    } else {
      assert (a + b)[0] == a[0] && (a + b)[1..] == a[1..] + b;
      RemoveAllAppend(a[1..], b, c);
    }
  }

  /** A one-character text loses that character exactly when it is `c`. */
  lemma RemoveAllSingle(x: char, c: char)
    ensures RemoveAll([x], c) == if x == c then [] else [x]
  {
    assert [x][1..] == [];
  }

  /** Removing a character that does not occur changes nothing. */
  lemma {:induction false} RemoveAllIdentity(s: string, c: char)
    requires c !in s
    ensures RemoveAll(s, c) == s
  {
    if s != [] {
      assert s[0] != c;
      RemoveAllIdentity(s[1..], c);
      assert s == [s[0]] + s[1..];
    }
  }

  /** Removing a character is idempotent. */
  lemma RemoveAllIdempotent(s: string, c: char)
    ensures RemoveAll(RemoveAll(s, c), c) == RemoveAll(s, c)
  {
    RemoveAllIdentity(RemoveAll(s, c), c);
  }

  /** Removing one character leaves the count of any other character as it was. */
  lemma {:induction false} RemoveAllKeepsOtherCount(s: string, c: char, d: char)
    requires c != d
    ensures Count(RemoveAll(s, c), d) == Count(s, d)
  {
    if s != [] {
      RemoveAllKeepsOtherCount(s[1..], c, d);
      if s[0] != c {
        assert ([s[0]] + RemoveAll(s[1..], c))[1..] == RemoveAll(s[1..], c);
      }
    }
  }

  /** Being a subsequence is transitive. */
  lemma {:induction false} SubsequenceTransitive(a: string, b: string, s: string)
    requires IsSubsequence(a, b) && IsSubsequence(b, s)
    ensures IsSubsequence(a, s)
    decreases |s|
  {
    if a != [] {
      if IsSubsequence(b, s[1..]) {
        SubsequenceTransitive(a, b, s[1..]);
      } else if a[0] == b[0] && IsSubsequence(a[1..], b[1..]) {
        SubsequenceTransitive(a[1..], b[1..], s[1..]);
      } else {
        SubsequenceTransitive(a, b[1..], s[1..]);
      }
    }
  }

  /** `removeComma`: drops the grouping separators a formatted number carries, keeping the rest in order. */
  function RemoveComma(s: string): (r: string)
    ensures ',' !in r
    ensures forall x :: x != ',' ==> (x in r <==> x in s)
    ensures IsSubsequence(r, s) && |r| + Count(s, ',') == |s|
  {
    RemoveAll(s, ',')
  }

  /** `removeWhitespaces`: drops every space, keeping the rest in order. */
  function RemoveWhitespaces(s: string): (r: string)
    ensures ' ' !in r
    ensures forall x :: x != ' ' ==> (x in r <==> x in s)
    ensures IsSubsequence(r, s) && |r| + Count(s, ' ') == |s|
  {
    RemoveAll(s, ' ')
  }

  /** `text.contains(pattern)`: `pattern` occurs in `text` as a contiguous block. */
  predicate Contains(text: string, pattern: string)
  {
    pattern <= text || (text != [] && Contains(text[1..], pattern))
  }

  /** `pattern` sits in `text` starting at position `i`. */
  predicate OccursAt(text: string, pattern: string, i: int)
  {
    0 <= i <= |text| - |pattern| && text[i..i + |pattern|] == pattern
  }

  /** An occurrence in the tail of `text` is an occurrence in `text`, one position on. */
  lemma OccursAtTail(text: string, pattern: string, i: nat)
    requires text != []
    ensures OccursAt(text[1..], pattern, i) <==> OccursAt(text, pattern, i + 1)
  {
    if 0 <= i <= |text| - 1 - |pattern| {
      assert text[1..][i..i + |pattern|] == text[i + 1..i + 1 + |pattern|];
    }
  }

  /** `Contains` holds exactly when `pattern` sits at some position of `text`. */
  lemma {:induction false} ContainsIff(text: string, pattern: string)
    ensures Contains(text, pattern) <==> exists i :: OccursAt(text, pattern, i)
  {
    if pattern <= text {
      assert OccursAt(text, pattern, 0);
    } else if text != [] {
      ContainsIff(text[1..], pattern);
      assert !OccursAt(text, pattern, 0);
      if exists i :: OccursAt(text, pattern, i) {
        var i :| OccursAt(text, pattern, i);
        assert i != 0;
        OccursAtTail(text, pattern, i - 1);
      }
      if Contains(text[1..], pattern) {
        var j :| OccursAt(text[1..], pattern, j);
        OccursAtTail(text, pattern, j);
      }
    }
  }

  /** `text` ends with `suffix`. */
  predicate EndsWith(text: string, suffix: string)
  {
    |suffix| <= |text| && text[|text| - |suffix|..] == suffix
  }
}
