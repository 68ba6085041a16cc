/**
 * The Python string operations main.py relies on, over strings as sequences
 * of code points (Python's `str` indexes and slices by code point, as Dafny's
 * `string` does by `char`).
 */
module Strings {

  /** Python's `str.isspace()` on one code point: the characters `str.strip()` removes. */
  predicate IsSpace(c: char)
  {
    var n := c as int;
    || (0x09 <= n <= 0x0D) || (0x1C <= n <= 0x20) || n == 0x85 || n == 0xA0
    || n == 0x1680 || (0x2000 <= n <= 0x200A) || n == 0x2028 || n == 0x2029
    || n == 0x202F || n == 0x205F || n == 0x3000
  }

  predicate AllSpace(s: string)
  {
    forall i :: 0 <= i < |s| ==> IsSpace(s[i])
  }

  /** No whitespace at either end. */
  predicate Trimmed(s: string)
  {
    s == [] || (!IsSpace(s[0]) && !IsSpace(s[|s| - 1]))
  }

  predicate OccursAt(s: string, sub: string, i: nat)
  {
    i + |sub| <= |s| && s[i..i + |sub|] == sub
  }

  /** Python's `sub in s`. */
  predicate Contains(s: string, sub: string)
  {
    exists i :: 0 <= i <= |s| && OccursAt(s, sub, i)
  }

  lemma ContainsTransitive(a: string, b: string, c: string)
    requires Contains(a, b) && Contains(b, c)
    ensures Contains(a, c)
  {
    var i :| 0 <= i <= |a| && OccursAt(a, b, i);
    var j :| 0 <= j <= |b| && OccursAt(b, c, j);
    forall k | 0 <= k < |c| ensures a[i + j + k] == c[k] {
      assert c[k] == b[j + k] == a[i + j + k];
    }
    assert a[i + j..i + j + |c|] == c;
    assert OccursAt(a, c, i + j);
  }

  /** A pattern absent from a string is absent from every substring of it. */
  lemma SubstringAvoids(a: string, b: string, pat: string)
    requires Contains(a, b) && !Contains(a, pat)
    ensures !Contains(b, pat)
  {
    if Contains(b, pat) {
      ContainsTransitive(a, b, pat);
    }
  }

  // ---------------------------------------------------------------- strip

  /** Where the run of whitespace that starts at `i` ends. */
  function LeadEnd(s: string, i: nat): (n: nat)
    requires i <= |s|
    ensures i <= n <= |s|
    ensures forall k :: i <= k < n ==> IsSpace(s[k])
    ensures n < |s| ==> !IsSpace(s[n])
    decreases |s| - i
  {
    if i < |s| && IsSpace(s[i]) then LeadEnd(s, i + 1) else i
  }

  /** Where the run of whitespace that ends at `j` starts. */
  function TrailStart(s: string, j: nat): (n: nat)
    requires j <= |s|
    ensures n <= j
    ensures forall k :: n <= k < j ==> IsSpace(s[k])
    ensures 0 < n ==> !IsSpace(s[n - 1])
    decreases j
  {
    if 0 < j && IsSpace(s[j - 1]) then TrailStart(s, j - 1) else j
  }

  /** The run is the longest one: any position with whitespace before it and none at it is its end. */
  lemma LeadEndUnique(s: string, i: nat, m: nat)
    requires i <= m <= |s|
    requires forall k :: i <= k < m ==> IsSpace(s[k])
    requires m < |s| ==> !IsSpace(s[m])
    ensures LeadEnd(s, i) == m
  {
  }

  lemma TrailStartUnique(s: string, j: nat, m: nat)
    requires m <= j <= |s|
    requires forall k :: m <= k < j ==> IsSpace(s[k])
    requires 0 < m ==> !IsSpace(s[m - 1])
    ensures TrailStart(s, j) == m
  {
  }

  /** Python's `s.lstrip()`: drops the longest all-whitespace prefix. */
  function StripLeft(s: string): (r: string)
    ensures |r| <= |s| && r == s[|s| - |r|..]
    ensures AllSpace(s[..|s| - |r|]) && (r == [] || !IsSpace(r[0]))
  {
    var n := LeadEnd(s, 0);
    assert forall k :: 0 <= k < n ==> s[..n][k] == s[k];
    s[n..]
  }

  /** Python's `s.rstrip()`: drops the longest all-whitespace suffix. */
  function StripRight(s: string): (r: string)
    ensures |r| <= |s| && r == s[..|r|]
    ensures AllSpace(s[|r|..]) && (r == [] || !IsSpace(r[|r| - 1]))
  {
    var n := TrailStart(s, |s|);
    assert forall k :: 0 <= k < |s| - n ==> s[n..][k] == s[n + k];
    s[..n]
  }

  /** Python's `s.strip()`: a trimmed slice of `s` with only whitespace around it. */
  function Strip(s: string): (r: string)
    ensures Trimmed(r)
    ensures Contains(s, r)
  {
    StripInside(s);
    StripRight(StripLeft(s))
  }

  /** Both ends stripped, what is left sits where the leading whitespace ends. */
  lemma StripInside(s: string)
    ensures var l := StripLeft(s);
            var r := StripRight(l);
            Trimmed(r) && OccursAt(s, r, |s| - |l|)
  {
    var l := StripLeft(s);
    var r := StripRight(l);
    var i := |s| - |l|;
    assert r == s[i..][..|r|] == s[i..i + |r|];
    assert r != [] ==> r[0] == l[0];
  }

  lemma StripLeftSkips(pre: string, rest: string)
    requires AllSpace(pre)
    ensures StripLeft(pre + rest) == StripLeft(rest)
  {
    var s := pre + rest;
    var m := LeadEnd(rest, 0);
    forall k | 0 <= k < |pre| + m ensures IsSpace(s[k]) {
      if k >= |pre| { assert s[k] == rest[k - |pre|]; }
    }
    if |pre| + m < |s| {
      assert s[|pre| + m] == rest[m];
    }
    LeadEndUnique(s, 0, |pre| + m);
    assert s[|pre| + m..] == rest[m..];
  }

  lemma StripRightSkips(rest: string, post: string)
    requires AllSpace(post)
    ensures StripRight(rest + post) == StripRight(rest)
  {
    var s := rest + post;
    var m := TrailStart(rest, |rest|);
    forall k | m <= k < |s| ensures IsSpace(s[k]) {
      if k >= |rest| { assert s[k] == post[k - |rest|]; }
    }
    if 0 < m {
      assert s[m - 1] == rest[m - 1];
    }
    TrailStartUnique(s, |s|, m);
    assert s[..m] == rest[..m];
  }

  /** Stripping undoes padding a trimmed string with whitespace on both sides. */
  lemma StripPadded(pre: string, body: string, post: string)
    requires AllSpace(pre) && AllSpace(post) && Trimmed(body)
    ensures Strip(pre + body + post) == body
  {
    assert pre + body + post == pre + (body + post);
    StripLeftSkips(pre, body + post);
    if body == [] {
      assert body + post == [] + post;
      StripLeftSkips(post, []);
      assert post + [] == post;
    } else {
      StripRightSkips(body, post);
    }
  }

  /** Stripping twice is stripping once. */
  lemma StripIdempotent(s: string)
    ensures Strip(Strip(s)) == Strip(s)
  {
    var r := Strip(s);
    assert [] + r + [] == r;
    StripPadded([], r, []);
  }

  // ---------------------------------------------------------------- replace

  /**
   * Python's `s.replace(pat, rep)`: every occurrence of `pat`, found left to
   * right without overlap, becomes `rep`.
   */
  function ReplaceAll(s: string, pat: string, rep: string): (r: string)
    requires pat != []
    decreases |s|
  {
    if |s| < |pat| then s
    else if s[..|pat|] == pat then rep + ReplaceAll(s[|pat|..], pat, rep)
    else [s[0]] + ReplaceAll(s[1..], pat, rep)
  }

  /** A prefix that cannot start an occurrence passes through `replace` untouched. */
  lemma {:induction false} ReplaceAllSkips(a: string, b: string, pat: string, rep: string)
    requires pat != [] && pat[0] !in a
    ensures ReplaceAll(a + b, pat, rep) == a + ReplaceAll(b, pat, rep)
    decreases |a|
  {
    if a != [] {
      var s := a + b;
      if |s| < |pat| {
        assert ReplaceAll(b, pat, rep) == b;
      } else {
        assert s[..|pat|][0] == a[0] != pat[0];
        assert s[1..] == a[1..] + b;
        ReplaceAllSkips(a[1..], b, pat, rep);
        assert [a[0]] + a[1..] == a;
      }
    } else {
      assert a + b == b;
    }
  }

  // ---------------------------------------------------------------- split and join

  /** Python's `s.split(sep)` for a one-character separator. */
  function Split(s: string, sep: char): (parts: seq<string>)
    ensures |parts| >= 1
    decreases |s|
  {
    if s == [] then [""]
    else
      var rest := Split(s[1..], sep);
      if s[0] == sep then [""] + rest else [[s[0]] + rest[0]] + rest[1..]
  }

  /** Python's `sep.join(parts)`. */
  function Join(parts: seq<string>, sep: string): string
  {
    if |parts| == 0 then ""
    else if |parts| == 1 then parts[0]
    else parts[0] + sep + Join(parts[1..], sep)
  }

  /** Joining the pieces back with the separator gives the original string. */
  lemma {:induction false} JoinSplit(s: string, sep: char)
    ensures Join(Split(s, sep), [sep]) == s
    decreases |s|
  {
    if s != [] {
      var rest := Split(s[1..], sep);
      JoinSplit(s[1..], sep);
      assert [s[0]] + s[1..] == s;
      if s[0] == sep {
        assert ([""] + rest)[1..] == rest;
      } else {
        var parts := [[s[0]] + rest[0]] + rest[1..];
        if |rest| > 1 {
          assert parts[1..] == rest[1..];
          assert Join(rest, [sep]) == rest[0] + [sep] + Join(rest[1..], [sep]);
        }
      }
    }
  }

  /** No piece of a split contains the separator. */
  lemma {:induction false} SplitPiecesSeparatorFree(s: string, sep: char)
    ensures forall p :: p in Split(s, sep) ==> sep !in p
    decreases |s|
  {
    if s != [] {
      SplitPiecesSeparatorFree(s[1..], sep);
      var rest := Split(s[1..], sep);
      assert rest[0] in rest;
      forall k | 1 <= k < |rest| ensures rest[k] in rest { }
    }
  }

  /** Splitting at one separator splits the two sides independently. */
  lemma {:induction false} SplitAround(a: string, b: string, sep: char)
    ensures Split(a + [sep] + b, sep) == Split(a, sep) + Split(b, sep)
    decreases |a|
  {
    var s := a + [sep] + b;
    if a == [] {
      assert s[1..] == b;
    } else {
      assert s[1..] == a[1..] + [sep] + b;
      SplitAround(a[1..], b, sep);
    }
  }

  // ---------------------------------------------------------------- case and slices

  /** ASCII lower-casing of one code point. */
  function LowerChar(c: char): char
  {
    if 'A' <= c <= 'Z' then (c as int + 32) as char else c
  }

  /** Python's `s.lower()`, restricted to ASCII letters. */
  function Lower(s: string): (r: string)
    ensures |r| == |s|
    ensures forall i :: 0 <= i < |s| ==> r[i] == LowerChar(s[i])
  {
    seq(|s|, i requires 0 <= i < |s| => LowerChar(s[i]))
  }

  /** Python's `s[:n]`. */
  function Take<T>(s: seq<T>, n: nat): (r: seq<T>)
    ensures |r| == if |s| <= n then |s| else n
    ensures r == s[..|r|]
  {
    if |s| <= n then s else s[..n]
  }
}
