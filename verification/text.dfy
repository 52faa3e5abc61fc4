/** The Python string operations the dashboard relies on: `str.strip()`,
    `str.split(sep)`, and the code-point order that `list.sort()` uses on
    strings. */
module Text {

  import opened Seqs

  /** Python's `str.isspace` for a single character: the characters that
      `str.strip()` with no argument removes. */
  predicate IsPyWhitespace(c: char)
    ensures c == ' ' || c == '\t' || c == '\n' ==> IsPyWhitespace(c)
    ensures IsPyWhitespace(c) ==> c != ',' && !('0' <= c <= '9')
  {
    var n := c as int;
    (9 <= n <= 13) || (28 <= n <= 32) || n == 0x85 || n == 0xA0 || n == 0x1680 ||
    (0x2000 <= n <= 0x200A) || n == 0x2028 || n == 0x2029 || n == 0x202F ||
    n == 0x205F || n == 0x3000
  }

  /** `s.lstrip()`: the longest suffix of `s` that does not start with
      whitespace, everything before it being whitespace. */
  function StripLeft(s: string): (r: string)
    ensures |r| <= |s| && r == s[|s| - |r|..]
    ensures forall i :: 0 <= i < |s| - |r| ==> IsPyWhitespace(s[i])
    ensures r != [] ==> !IsPyWhitespace(r[0])
  {
    if s != [] && IsPyWhitespace(s[0]) then StripLeft(s[1..]) else s
  }

  /** `s.rstrip()`: the longest prefix of `s` that does not end with
      whitespace, everything after it being whitespace. */
  function StripRight(s: string): (r: string)
    ensures |r| <= |s| && r == s[..|r|]
    ensures forall i :: |r| <= i < |s| ==> IsPyWhitespace(s[i])
    ensures r != [] ==> !IsPyWhitespace(r[|r| - 1])
  {
    if s != [] && IsPyWhitespace(s[|s| - 1]) then StripRight(s[..|s| - 1]) else s
  }

  /** `s.strip()`: `s` with leading and trailing whitespace removed. */
  function Strip(s: string): (r: string)
    ensures |r| <= |s|
    ensures r != [] ==> !IsPyWhitespace(r[0]) && !IsPyWhitespace(r[|r| - 1])
    ensures var a := |s| - |StripLeft(s)|;
      a + |r| <= |s| &&
      (forall i :: 0 <= i < a ==> IsPyWhitespace(s[i])) &&
      (forall i :: 0 <= i < |r| ==> r[i] == s[a + i]) &&
      (forall i :: a + |r| <= i < |s| ==> IsPyWhitespace(s[i]))
  {
    var l := StripLeft(s);
    StripKeepsWindow(s);
    StripDropsTrailing(s);
    StripRight(l)
  }

  /** Stripping both ends keeps a window of `s` that starts where `lstrip`
      stops. */
  lemma StripKeepsWindow(s: string)
    ensures var a := |s| - |StripLeft(s)|; var r := StripRight(StripLeft(s));
      a + |r| <= |s| && forall i :: 0 <= i < |r| ==> r[i] == s[a + i]
  {
    var l := StripLeft(s);
    var r := StripRight(l);
    assert l == s[|s| - |l|..];
    forall i | 0 <= i < |r| ensures r[i] == s[|s| - |l| + i] {
      assert r[i] == l[i];
    }
  }

  /** Everything after that window is whitespace. */
  lemma StripDropsTrailing(s: string)
    ensures var a := |s| - |StripLeft(s)|; var r := StripRight(StripLeft(s));
      forall i :: a + |r| <= i < |s| ==> IsPyWhitespace(s[i])
  {
    var l := StripLeft(s);
    var r := StripRight(l);
    assert l == s[|s| - |l|..];
    forall i | |s| - |l| + |r| <= i < |s| ensures IsPyWhitespace(s[i]) {
      assert s[i] == l[i - (|s| - |l|)];
    }
  }

  /** A string made only of whitespace strips to the empty string. */
  lemma StripAllWhitespace(s: string)
    requires forall i :: 0 <= i < |s| ==> IsPyWhitespace(s[i])
    ensures Strip(s) == ""
  {
  }

  /** A string without whitespace at either end strips to itself. */
  lemma StripUnpadded(s: string)
    requires s != [] ==> !IsPyWhitespace(s[0]) && !IsPyWhitespace(s[|s| - 1])
    ensures Strip(s) == s
  {
  }

  /** Index of the first occurrence of `c` in `s`. */
  function IndexOf(s: string, c: char): (i: nat)
    requires c in s
    ensures i < |s| && s[i] == c && c !in s[..i]
  {
    if s[0] == c then 0 else 1 + IndexOf(s[1..], c)
  }

  /** Python's `s.split(sep)` for a one-character separator: the pieces
      between consecutive separators, empty pieces included. */
  function Split(s: string, sep: char): (r: seq<string>)
    ensures |r| >= 1
    ensures forall k :: 0 <= k < |r| ==> sep !in r[k]
    ensures forall k, i :: 0 <= k < |r| && 0 <= i < |r[k]| ==> r[k][i] in s
    decreases |s|
  {
    if sep !in s then [s]
    else
      var i := IndexOf(s, sep);
      [s[..i]] + Split(s[i + 1..], sep)
  }

  /** Python's `sep.join(parts)`. */
  function Join(parts: seq<string>, sep: char): (r: string)
    requires |parts| >= 1
  {
    if |parts| == 1 then parts[0] else parts[0] + [sep] + Join(parts[1..], sep)
  }

  /** Joining the pieces of a split restores the string. */
  lemma {:induction false} JoinSplit(s: string, sep: char)
    ensures Join(Split(s, sep), sep) == s
    decreases |s|
  {
    if sep in s {
      var i := IndexOf(s, sep);
      var rest := Split(s[i + 1..], sep);
      var parts := Split(s, sep);
      assert parts == [s[..i]] + rest;
      assert |parts| > 1 && parts[0] == s[..i] && parts[1..] == rest;
      assert Join(parts, sep) == s[..i] + [sep] + Join(rest, sep);
      JoinSplit(s[i + 1..], sep);
      assert s == s[..i] + [sep] + s[i + 1..];
    }
  }

  /** The first occurrence is where the character is found with none before it. */
  lemma {:induction false} IndexOfFirst(s: string, c: char, n: nat)
    requires n < |s| && s[n] == c && c !in s[..n]
    ensures IndexOf(s, c) == n
  {
    if n > 0 {
      assert s[0] in s[..n];
      assert s[1..][..n - 1] == s[1..n];
      assert forall x :: x in s[1..n] ==> x in s[..n];
      IndexOfFirst(s[1..], c, n - 1);
    }
  }

  /** Splitting a join of separator-free pieces gives the pieces back. */
  lemma {:induction false} SplitJoin(parts: seq<string>, sep: char)
    requires |parts| >= 1
    requires forall k :: 0 <= k < |parts| ==> sep !in parts[k]
    ensures Split(Join(parts, sep), sep) == parts
  {
    if |parts| > 1 {
      var rest := Join(parts[1..], sep);
      var s := Join(parts, sep);
      var n := |parts[0]|;
      assert s == parts[0] + [sep] + rest;
      assert s[..n] == parts[0];
      assert s[n + 1..] == rest;
      IndexOfFirst(s, sep, n);
      assert Split(s, sep) == [parts[0]] + Split(rest, sep);
      SplitJoin(parts[1..], sep);
      assert parts == [parts[0]] + parts[1..];
    }
  }

  /** `Strip` applied to each piece, as the list comprehension
      `[p.strip() for p in parts]` does. */
  function StripEach(parts: seq<string>): (r: seq<string>)
    ensures |r| == |parts|
    ensures forall k :: 0 <= k < |r| ==> r[k] == Strip(parts[k])
  {
    if parts == [] then [] else [Strip(parts[0])] + StripEach(parts[1..])
  }

  /** Python's `a <= b` on strings: lexicographic by code point, a proper
      prefix coming first. */
  predicate StrLeq(a: string, b: string)
    ensures a <= b ==> StrLeq(a, b)
    ensures StrLeq(a, b) && b <= a ==> a == b
  {
    a == [] || (b != [] && (a[0] < b[0] || (a[0] == b[0] && StrLeq(a[1..], b[1..]))))
  }

  lemma {:induction false} StrLeqTotal(a: string, b: string)
    ensures StrLeq(a, b) || StrLeq(b, a)
  {
    if a != [] && b != [] && a[0] == b[0] {
      StrLeqTotal(a[1..], b[1..]);
    }
  }

  lemma {:induction false} StrLeqAntisymmetric(a: string, b: string)
    requires StrLeq(a, b) && StrLeq(b, a)
    ensures a == b
  {
    if a != [] && b != [] {
      StrLeqAntisymmetric(a[1..], b[1..]);
      assert a == [a[0]] + a[1..] && b == [b[0]] + b[1..];
    }
  }

  lemma {:induction false} StrLeqTransitive(a: string, b: string, c: string)
    requires StrLeq(a, b) && StrLeq(b, c)
    ensures StrLeq(a, c)
  {
    if a != [] && a[0] == b[0] && b[0] == c[0] {
      StrLeqTransitive(a[1..], b[1..], c[1..]);
    }
  }

  /** Every string is ordered no later than its successor. */
  predicate Sorted(s: seq<string>)
  {
    forall i :: 0 < i < |s| ==> StrLeq(s[i - 1], s[i])
  }

  /** Adjacent order gives the order of every pair. */
  lemma {:induction false} SortedPairwise(s: seq<string>, i: nat, j: nat)
    requires Sorted(s) && i <= j < |s|
    ensures StrLeq(s[i], s[j])
    decreases j - i
  {
    if i == j {
      StrLeqTotal(s[i], s[i]);
    } else {
      SortedPairwise(s, i, j - 1);
      StrLeqTransitive(s[i], s[j - 1], s[j]);
    }
  }

  /** Inserts `x` into a sorted list, keeping it sorted. */
  function Insert(x: string, s: seq<string>): (r: seq<string>)
    requires Sorted(s)
    ensures Sorted(r)
    ensures multiset(r) == multiset(s) + multiset{x}
    ensures r[0] == x || r[0] == s[0]
  {
    if s == [] then [x]
    else if StrLeq(x, s[0]) then [x] + s
    else
      StrLeqTotal(x, s[0]);
      var t := Insert(x, s[1..]);
      assert s == [s[0]] + s[1..];
      [s[0]] + t
  }

  /** The list sorted ascending, as `list.sort()` leaves it. */
  function Sort(s: seq<string>): (r: seq<string>)
    ensures Sorted(r)
    ensures multiset(r) == multiset(s)
  {
    if s == [] then []
    else
      assert s == [s[0]] + s[1..];
      Insert(s[0], Sort(s[1..]))
  }

  /** Inserting a new string into a duplicate-free list keeps it
      duplicate-free. */
  lemma {:induction false} InsertDistinct(x: string, s: seq<string>)
    requires Sorted(s)
    requires x !in s && NoDuplicates(s)
    ensures NoDuplicates(Insert(x, s))
  {
    if s == [] {
    } else if StrLeq(x, s[0]) {
      NoDuplicatesCons(x, s);
    } else {
      var t := Insert(x, s[1..]);
      assert s == [s[0]] + s[1..];
      NoDuplicatesCons(s[0], s[1..]);
      InsertDistinct(x, s[1..]);
      assert s[0] !in multiset(t);
      NoDuplicatesCons(s[0], t);
    }
  }

  /** Sorting a duplicate-free list leaves it duplicate-free. */
  lemma {:induction false} SortDistinct(s: seq<string>)
    requires NoDuplicates(s)
    ensures NoDuplicates(Sort(s))
  {
    if s != [] {
      assert s == [s[0]] + s[1..];
      NoDuplicatesCons(s[0], s[1..]);
      SortDistinct(s[1..]);
      var t := Sort(s[1..]);
      assert s[0] !in multiset(t);
      InsertDistinct(s[0], t);
    }
  }
}
