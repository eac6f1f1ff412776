/**
 * The PHP string built-ins the job service relies on, as functions on `seq<char>`:
 * `trim` with one character, `explode` with and without a limit, `implode`,
 * single-pass `str_replace`, and the `preg_replace('#/+#', '/', ...)` that
 * collapses runs of slashes.
 */
module PhpStrings {

  /** `s` contains `pat` as a contiguous substring (PHP `strpos(s, pat) !== false`). */
  predicate Contains(s: string, pat: string)
    decreases |s|
  {
    |pat| <= |s| && (s[..|pat|] == pat || Contains(s[1..], pat))
  }

  /** `s` holds two consecutive copies of `c`. */
  predicate HasRun(s: string, c: char)
  {
    exists i :: 0 <= i < |s| - 1 && s[i] == c && s[i + 1] == c
  }

  /** The characters of `s` other than `c`, in order. */
  function Without(s: string, c: char): string
  {
    if s == [] then [] else (if s[0] == c then [] else [s[0]]) + Without(s[1..], c)
  }

  lemma NoRunInTail(s: string, c: char)
    requires s != [] && !HasRun(s, c)
    ensures !HasRun(s[1..], c)
  {
    forall i | 0 <= i < |s| - 2
      ensures !(s[1..][i] == c && s[1..][i + 1] == c)
    {
      assert s[1..][i] == s[i + 1] && s[1..][i + 1] == s[i + 2];
    }
  }

  // ---------------------------------------------------------------- trim

  /** How many copies of `c` open `s`. */
  function Leading(s: string, c: char): (n: nat)
    ensures n <= |s|
    ensures n == |s| || s[n] != c
  {
    if s != [] && s[0] == c then 1 + Leading(s[1..], c) else 0
  }

  /** How many copies of `c` close `s`. */
  function Trailing(s: string, c: char): (n: nat)
    ensures n <= |s|
    ensures n == |s| || s[|s| - n - 1] != c
  {
    if s != [] && s[|s| - 1] == c then 1 + Trailing(s[..|s| - 1], c) else 0
  }

  lemma {:induction false} LeadingCopies(s: string, c: char)
    ensures forall k :: 0 <= k < Leading(s, c) ==> s[k] == c
    decreases |s|
  {
    if s != [] && s[0] == c {
      var u := s[1..];
      LeadingCopies(u, c);
      forall k | 0 <= k < Leading(s, c)
        ensures s[k] == c
      {
        if k > 0 {
          assert s[k] == u[k - 1];
        }
      }
    }
  }

  lemma {:induction false} TrailingCopies(s: string, c: char)
    ensures forall k :: |s| - Trailing(s, c) <= k < |s| ==> s[k] == c
    decreases |s|
  {
    if s != [] && s[|s| - 1] == c {
      var u := s[..|s| - 1];
      TrailingCopies(u, c);
      forall k | |s| - Trailing(s, c) <= k < |s|
        ensures s[k] == c
      {
        if k < |u| {
          assert s[k] == u[k];
        }
      }
    }
  }

  /** PHP `trim(s, c)`: strip every copy of `c` from both ends of `s`. */
  function Trim(s: string, c: char): (r: string)
    ensures r != [] ==> r[0] != c && r[|r| - 1] != c
  {
    var a := Leading(s, c);
    var t := s[a..];
    var b := Trailing(t, c);
    var r := t[..|t| - b];
    assert r != [] ==> r[0] == s[a] && r[|r| - 1] == t[|t| - b - 1];
    r
  }

  /**
   * What `trim` removes is copies of `c` only: the result is the part of `s`
   * between positions `a` and `b`, and every character outside it is `c`.
   */
  lemma TrimStripsOnly(s: string, c: char)
    ensures exists a, b :: 0 <= a <= b <= |s| && Trim(s, c) == s[a..b] && Outside(s, a, b, c)
  {
    var a, b := TrimBounds(s, c);
  }

  /** Every character of `s` before `a` or from `b` on is `c`. */
  predicate Outside(s: string, a: int, b: int, c: char)
  {
    forall k :: 0 <= k < |s| && (k < a || b <= k) ==> s[k] == c
  }

  lemma TrimBounds(s: string, c: char) returns (a: nat, b: nat)
    ensures a <= b <= |s| && Trim(s, c) == s[a..b] && Outside(s, a, b, c)
  {
    a := Leading(s, c);
    var t := s[a..];
    var n := Trailing(t, c);
    b := a + |t| - n;
    LeadingCopies(s, c);
    TrailingCopies(t, c);
    assert t[..|t| - n] == s[a..b];
    forall k | 0 <= k < |s| && (k < a || b <= k)
      ensures s[k] == c
    {
      if b <= k {
        assert s[k] == t[k - a];
      }
    }
  }

  // ------------------------------------------------------ explode / implode

  /** The position of the first `c` in `s`. */
  function IndexOf(s: string, c: char): (i: nat)
    requires c in s
    ensures i < |s| && s[i] == c && c !in s[..i]
  {
    if s[0] == c then 0 else 1 + IndexOf(s[1..], c)
  }

  /** PHP `implode(sep, parts)`. */
  function Join(parts: seq<string>, sep: char): string
  {
    if |parts| == 0 then []
    else if |parts| == 1 then parts[0]
    else parts[0] + [sep] + Join(parts[1..], sep)
  }

  /** Joining one more piece in front adds it and one separator. */
  lemma JoinCons(x: string, rest: seq<string>, sep: char)
    requires rest != []
    ensures Join([x] + rest, sep) == x + [sep] + Join(rest, sep)
  {
    assert ([x] + rest)[1..] == rest;
  }

  lemma CutAt(s: string, i: nat)
    requires i < |s|
    ensures s == s[..i] + [s[i]] + s[i + 1..]
  {
    assert s[..i + 1] == s[..i] + [s[i]];
  }

  lemma TailOfCons(x: string, rest: seq<string>)
    ensures ([x] + rest)[1..] == rest
  {
  }

  /** PHP `explode(sep, s)`: the pieces between the separators, never an empty list. */
  function Split(s: string, sep: char): (parts: seq<string>)
    ensures |parts| >= 1
    ensures forall i :: 0 <= i < |parts| ==> sep !in parts[i]
    ensures Join(parts, sep) == s
    decreases |s|
  {
    if sep !in s then [s]
    else
      var i := IndexOf(s, sep);
      var rest := Split(s[i + 1..], sep);
      var parts := [s[..i]] + rest;
      JoinCons(s[..i], rest, sep);
      CutAt(s, i);
      TailOfCons(s[..i], rest);
      parts
  }

  /**
   * PHP `explode(sep, s, limit)` for a positive limit: at most `limit` pieces,
   * the last one holding the rest of `s` separators included.
   */
  function SplitAtMost(s: string, sep: char, limit: nat): (parts: seq<string>)
    requires limit >= 1
    ensures 1 <= |parts| <= limit
    ensures Join(parts, sep) == s
    ensures forall i :: 0 <= i < |parts| - 1 ==> sep !in parts[i]
    ensures |parts| < limit ==> forall i :: 0 <= i < |parts| ==> sep !in parts[i]
    decreases limit
  {
    if limit == 1 || sep !in s then [s]
    else
      var i := IndexOf(s, sep);
      var rest := SplitAtMost(s[i + 1..], sep, limit - 1);
      var parts := [s[..i]] + rest;
      JoinCons(s[..i], rest, sep);
      CutAt(s, i);
      TailOfCons(s[..i], rest);
      parts
  }

  // ------------------------------------------------------------ str_replace

  /**
   * PHP `str_replace(pat, rep, s)`: one left-to-right scan that replaces each
   * non-overlapping occurrence of `pat`; the text it inserts is not scanned again.
   */
  function Replace(s: string, pat: string, rep: string): (r: string)
    requires |pat| > 0
    ensures !Contains(s, pat) ==> r == s
    ensures |rep| <= |pat| ==> |r| <= |s|
    decreases |s|
  {
    if |s| < |pat| then s
    else if s[..|pat|] == pat then rep + Replace(s[|pat|..], pat, rep)
    else [s[0]] + Replace(s[1..], pat, rep)
  }

  /**
   * The scan replaces the first occurrence: text before it is copied, the
   * occurrence becomes `rep`, and the scan resumes after it. With the
   * no-occurrence clause of `Replace` this determines `str_replace`.
   */
  lemma {:induction false} ReplaceFirst(a: string, pat: string, b: string, rep: string)
    requires |pat| > 0 && !Contains(a + pat[..|pat| - 1], pat)
    ensures Replace(a + pat + b, pat, rep) == a + rep + Replace(b, pat, rep)
    decreases |a|
  {
    var s := a + pat + b;
    if a == [] {
      assert s == pat + b;
      ReplaceHit(pat, b, rep);
    } else {
      var x := a + pat[..|pat| - 1];
      var r := Replace(b, pat, rep);
      MissAtFront(a, pat, b);
      ReplaceMiss(s, pat, rep);
      ContainsTail(x, pat);
      TailOfPair(a, pat[..|pat| - 1]);
      TailAfter(a, pat, b);
      ReplaceFirst(a[1..], pat, b, rep);
      Assoc(a[1..], rep, r);
      ConsSplit(a, rep + r);
      Assoc(a, rep, r);
    }
  }

  lemma ReplaceHit(pat: string, b: string, rep: string)
    requires |pat| > 0
    ensures Replace(pat + b, pat, rep) == rep + Replace(b, pat, rep)
  {
    var s := pat + b;
    assert s[..|pat|] == pat && s[|pat|..] == b;
  }

  lemma ReplaceMiss(s: string, pat: string, rep: string)
    requires |pat| > 0 && |s| >= |pat| && s[..|pat|] != pat
    ensures Replace(s, pat, rep) == [s[0]] + Replace(s[1..], pat, rep)
  {
  }

  /** An occurrence right at the front would be an occurrence in `a` plus all but the last of `pat`. */
  lemma MissAtFront(a: string, pat: string, b: string)
    requires a != [] && |pat| > 0 && !Contains(a + pat[..|pat| - 1], pat)
    ensures |a + pat + b| >= |pat| && (a + pat + b)[..|pat|] != pat
  {
    var x := a + pat[..|pat| - 1];
    var s := a + pat + b;
    assert s[..|pat|] == x[..|pat|];
  }

  lemma ContainsTail(x: string, pat: string)
    requires x != [] && !Contains(x, pat)
    ensures !Contains(x[1..], pat)
  {
  }

  lemma TailOfPair(a: string, m: string)
    requires a != []
    ensures (a + m)[1..] == a[1..] + m
  {
  }

  lemma TailAfter(a: string, m: string, b: string)
    requires a != []
    ensures (a + m + b)[1..] == a[1..] + m + b
  {
  }

  lemma ConsSplit(a: string, y: string)
    requires a != []
    ensures [a[0]] + (a[1..] + y) == a + y
  {
    assert a == [a[0]] + a[1..];
  }

  /** A text missing the last character of `pat` holds no occurrence of it. */
  lemma {:induction false} NoLastNoMatch(s: string, pat: string)
    requires |pat| > 0 && pat[|pat| - 1] !in s
    ensures !Contains(s, pat)
    decreases |s|
  {
    if |pat| <= |s| {
      assert s[..|pat|][|pat| - 1] == s[|pat| - 1];
      NoLastNoMatch(s[1..], pat);
    }
  }

  // ------------------------------------------------------ collapse slashes

  /** PHP `preg_replace('#c+#', c, s)`: every run of `c` becomes a single `c`. */
  function Collapse(s: string, c: char): (r: string)
    ensures !HasRun(r, c)
    ensures Without(r, c) == Without(s, c)
    ensures |r| <= |s| && (s != [] ==> r != [] && r[0] == s[0])
    ensures !HasRun(s, c) ==> r == s
    decreases |s|
  {
    if |s| < 2 then s
    else if s[0] == c && s[1] == c then Collapse(s[1..], c)
    else
      var rest := Collapse(s[1..], c);
      var r := [s[0]] + rest;
      assert !HasRun(s, c) ==> !HasRun(s[1..], c) by {
        if !HasRun(s, c) { NoRunInTail(s, c); }
      }
      forall i | 0 <= i < |r| - 1
        ensures !(r[i] == c && r[i + 1] == c)
      {
        if i > 0 {
          assert r[i] == rest[i - 1] && r[i + 1] == rest[i];
        }
      }
      assert r[1..] == rest;
      r
  }
  /**
   * How the collapse proceeds: text up to the first `c` is copied, then one
   * `c` stands for the whole run that starts there. With `Collapse`'s
   * contract this determines `preg_replace('#c+#', c, s)`.
   */
  lemma {:induction false} CollapseAfter(a: string, c: char, b: string)
    requires c !in a
    ensures Collapse(a + [c] + b, c) == a + [c] + Collapse(b[Leading(b, c)..], c)
    decreases |a|
  {
    var s := a + [c] + b;
    var r := Collapse(b[Leading(b, c)..], c);
    if a == [] {
      assert s == [c] + b;
      CollapseRun(c, b);
    } else {
      assert s[0] == a[0];
      CollapseKeep(s, c);
      TailAfter(a, [c], b);
      CollapseAfter(a[1..], c, b);
      Assoc(a[1..], [c], r);
      ConsSplit(a, [c] + r);
      Assoc(a, [c], r);
    }
  }

  lemma CollapseKeep(s: string, c: char)
    requires |s| >= 2 && s[0] != c
    ensures Collapse(s, c) == [s[0]] + Collapse(s[1..], c)
  {
  }

  /** A run of `c` collapses to its first copy. */
  lemma {:induction false} CollapseRun(c: char, b: string)
    ensures Collapse([c] + b, c) == [c] + Collapse(b[Leading(b, c)..], c)
    decreases |b|
  {
    var s := [c] + b;
    if b == [] {
      assert s == [c];
    } else if b[0] == c {
      assert s[1..] == b == [c] + b[1..];
      CollapseRun(c, b[1..]);
      assert b[Leading(b, c)..] == b[1..][Leading(b[1..], c)..];
    } else {
      assert s[1..] == b;
    }
  }

  // ------------------------------------------------------ helper facts

  lemma Assoc(a: string, b: string, c: string)
    ensures a + (b + c) == a + b + c
  {
  }

  /** A prefix holding no first character of `pat` is copied through unchanged. */
  lemma {:induction false} ReplaceSkipsPrefix(a: string, b: string, pat: string, rep: string)
    requires |pat| > 0 && pat[0] !in a
    ensures Replace(a + b, pat, rep) == a + Replace(b, pat, rep)
  {
    var ab := a + b;
    if a == [] {
      assert ab == b;
    } else if |ab| < |pat| {
      assert Replace(b, pat, rep) == b;
    } else {
      assert ab[0] == a[0] != pat[0];
      assert ab[..|pat|] != pat;
      assert ab[1..] == a[1..] + b;
      ReplaceSkipsPrefix(a[1..], b, pat, rep);
      var tail := Replace(b, pat, rep);
      assert Replace(ab, pat, rep) == [a[0]] + (a[1..] + tail);
      assert [a[0]] + (a[1..] + tail) == a + tail;
    }
  }

  /** The first separator is the one after a separator-free prefix. */
  lemma IndexOfFirst(a: string, sep: char, b: string)
    requires sep !in a
    ensures IndexOf(a + [sep] + b, sep) == |a|
    decreases |a|
  {
    if a != [] {
      assert (a + [sep] + b)[1..] == a[1..] + [sep] + b;
      IndexOfFirst(a[1..], sep, b);
    }
  }

  /** `explode` with a limit peels off one separator-free piece at a time. */
  lemma SplitFirst(a: string, sep: char, b: string, limit: nat)
    requires limit >= 2 && sep !in a
    ensures SplitAtMost(a + [sep] + b, sep, limit) == [a] + SplitAtMost(b, sep, limit - 1)
  {
    var s := a + [sep] + b;
    IndexOfFirst(a, sep, b);
    assert s[..|a|] == a && s[|a| + 1..] == b;
  }

}
