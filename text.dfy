/**
 * String helpers standing in for the Swift `String` members the app uses:
 * `firstIndex(of:)`, `prefix(_:)`, `split(separator:)` and the `<`/`>`
 * ordering. Strings are sequences of characters and compare character by
 * character.
 */
module Text {

  /** Position of the first `c` in `s`, or `|s|` when there is none (`firstIndex(of:)`). */
  function IndexOf(s: string, c: char): (i: nat)
    ensures i <= |s|
    ensures i < |s| ==> s[i] == c
    ensures forall k :: 0 <= k < i ==> s[k] != c
  {
    if s == [] then 0 else if s[0] == c then 0 else 1 + IndexOf(s[1..], c)
  }

  /** `firstIndex(of:)` finds nothing exactly when there is nothing to find. */
  lemma IndexOfAbsent(s: string, c: char)
    ensures IndexOf(s, c) == |s| <==> c !in s
  {
    var i := IndexOf(s, c);
    if i < |s| {
      assert s[i] in s;
    } else {
      assert forall k :: 0 <= k < |s| ==> s[k] != c;
    }
  }

  /** Number of occurrences of `c` in `s`. */
  function Count(s: string, c: char): nat
  {
    if s == [] then 0 else (if s[0] == c then 1 else 0) + Count(s[1..], c)
  }

  lemma {:induction false} CountConcat(a: string, b: string, c: char)
    ensures Count(a + b, c) == Count(a, c) + Count(b, c)
  {
    if a != [] {
      assert (a + b)[1..] == a[1..] + b;
      CountConcat(a[1..], b, c);
    } else {
      assert a + b == b;
    }
  }

  lemma {:induction false} CountZero(s: string, c: char)
    ensures Count(s, c) == 0 <==> c !in s
  {
    if s != [] {
      CountZero(s[1..], c);
      assert c in s <==> s[0] == c || c in s[1..];
    }
  }

  /** No `c` before the first one, so the count is one more than after it. */
  lemma CountAfterFirst(s: string, c: char, k: nat)
    requires k < |s| && s[k] == c
    requires forall i :: 0 <= i < k ==> s[i] != c
    ensures Count(s, c) == 1 + Count(s[k + 1..], c)
  {
    var w := s[..k];
    var t := s[k + 1..];
    assert s == w + [c] + t;
    CountConcat(w + [c], t, c);
    CountConcat(w, [c], c);
    assert c !in w;
    CountZero(w, c);
    assert Count([c], c) == 1;
  }

  /** The first `n` characters, or all of them when there are fewer (`prefix(n)`). */
  function Prefix(s: string, n: nat): (r: string)
    ensures |r| == if |s| < n then |s| else n
    ensures r == s[..|r|]
  {
    if |s| <= n then s else s[..n]
  }

  /** `a` sorts at or before `b`, comparing character by character. */
  predicate LexLe(a: string, b: string)
  {
    if a == [] then true
    else if b == [] then false
    else if a[0] != b[0] then a[0] < b[0]
    else LexLe(a[1..], b[1..])
  }

  lemma {:induction false} LexLeTotal(a: string, b: string)
    ensures LexLe(a, b) || LexLe(b, a)
  {
    if a != [] && b != [] && a[0] == b[0] {
      LexLeTotal(a[1..], b[1..]);
    }
  }

  lemma {:induction false} LexLeTransitive(a: string, b: string, c: string)
    requires LexLe(a, b) && LexLe(b, c)
    ensures LexLe(a, c)
  {
    if a != [] && b != [] && c != [] && a[0] == b[0] && b[0] == c[0] {
      LexLeTransitive(a[1..], b[1..], c[1..]);
    }
  }

  lemma {:induction false} LexLeAntisymmetric(a: string, b: string)
    requires LexLe(a, b) && LexLe(b, a)
    ensures a == b
  {
    if a != [] && b != [] {
      LexLeAntisymmetric(a[1..], b[1..]);
      assert a == [a[0]] + a[1..] && b == [b[0]] + b[1..];
    }
  }

  /**
   * The non-empty pieces of `s` between occurrences of `sep`: Swift's
   * `split(separator:)`, which omits empty pieces.
   */
  function Split(s: string, sep: char): (parts: seq<string>)
    ensures forall i :: 0 <= i < |parts| ==> |parts[i]| > 0 && sep !in parts[i]
    decreases |s|
  {
    var i := IndexOf(s, sep);
    if i == |s| then (if s == [] then [] else [s])
    else (if i == 0 then [] else [s[..i]]) + Split(s[i + 1..], sep)
  }

  /** A string without the separator is one piece, or none when empty. */
  lemma SplitNoSeparator(s: string, sep: char)
    requires sep !in s
    ensures Split(s, sep) == if s == [] then [] else [s]
  {
  }

  /** Two non-empty separator-free strings joined by one separator split back into themselves. */
  lemma SplitJoined(w: string, f: string, sep: char)
    requires |w| > 0 && |f| > 0 && sep !in w && sep !in f
    ensures Split(w + [sep] + f, sep) == [w, f]
  {
    var s := w + [sep] + f;
    assert IndexOf(s, sep) == |w| by {
      assert s[|w|] == sep;
      assert forall k :: 0 <= k < |w| ==> s[k] == w[k];
    }
    assert s[..|w|] == w;
    assert s[|w| + 1..] == f;
    SplitNoSeparator(f, sep);
  }
}
