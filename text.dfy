/** String helpers with the meaning of the Rust `str` methods the program
    calls: `contains`, `find`, `rfind`, `trim` and `is_empty`. A string is
    modelled as a sequence of Unicode scalar values. */
module Text {
  import opened Wrappers

  /** Rust's `char::is_whitespace`: the code points with the Unicode
      White_Space property. */
  predicate IsWhitespace(c: char) {
    var n := c as int;
    (0x09 <= n <= 0x0D) || n == 0x20 || n == 0x85 || n == 0xA0 || n == 0x1680
    || (0x2000 <= n <= 0x200A) || n == 0x2028 || n == 0x2029 || n == 0x202F
    || n == 0x205F || n == 0x3000
  }

  /** Every character of `s` is whitespace (vacuously so for ""). */
  predicate IsBlank(s: string) {
    forall i :: 0 <= i < |s| ==> IsWhitespace(s[i])
  }

  /** `str::trim_start`: drops the leading whitespace. */
  function TrimStart(s: string): (r: string)
    ensures |r| <= |s| && r == s[|s| - |r|..]
    ensures IsBlank(s[..|s| - |r|])
    ensures r != [] ==> !IsWhitespace(r[0])
    ensures r == [] <==> IsBlank(s)
  {
    if s != [] && IsWhitespace(s[0]) then
      var r := TrimStart(s[1..]);
      assert s[1..][|s| - 1 - |r|..] == s[|s| - |r|..];
      assert forall k :: 1 <= k < |s| - |r| ==> s[k] == s[1..][..|s| - 1 - |r|][k - 1];
      r
    else s
  }

  /** `str::trim_end`: drops the trailing whitespace. */
  function TrimEnd(s: string): (r: string)
    ensures |r| <= |s| && r == s[..|r|]
    ensures IsBlank(s[|r|..])
    ensures r != [] ==> !IsWhitespace(r[|r| - 1])
    ensures r == [] <==> IsBlank(s)
  {
    if s != [] && IsWhitespace(s[|s| - 1]) then TrimEnd(s[..|s| - 1]) else s
  }

  /** `str::trim`: drops whitespace at both ends. So `s.trim().is_empty()`
      holds exactly when `s` is all whitespace. */
  function Trim(s: string): (r: string)
    ensures |r| <= |s|
    ensures r != [] ==> !IsWhitespace(r[0]) && !IsWhitespace(r[|r| - 1])
    ensures r == [] <==> IsBlank(s)
  {
    TrimEnd(TrimStart(s))
  }

  /** `str::starts_with`. */
  predicate StartsWith(s: string, p: string) {
    p <= s
  }

  /** `str::ends_with`. */
  predicate EndsWith(s: string, p: string) {
    |p| <= |s| && s[|s| - |p|..] == p
  }

  /** `str::contains` with a string pattern: `p` starts at some position of
      `s`. The empty pattern is contained in every string, as in Rust. */
  predicate Contains(s: string, p: string)
    decreases |s|
  {
    StartsWith(s, p) || (s != [] && Contains(s[1..], p))
  }

  /** `p` occurs in `s` starting at index `i`. */
  predicate OccursAt(s: string, p: string, i: int) {
    0 <= i <= |s| - |p| && s[i..i + |p|] == p
  }

  /** `Contains` means an occurrence at some index. */
  lemma {:induction false} ContainsIffOccurrence(s: string, p: string)
    ensures Contains(s, p) <==> exists i :: OccursAt(s, p, i)
    decreases |s|
  {
    if StartsWith(s, p) {
      assert OccursAt(s, p, 0);
    } else if s != [] {
      ContainsIffOccurrence(s[1..], p);
      if exists i :: OccursAt(s, p, i) {
        var i :| OccursAt(s, p, i);
        assert i != 0 by { assert s[0..|p|] == s[..|p|]; }
        assert s[1..][i - 1..i - 1 + |p|] == s[i..i + |p|];
        assert OccursAt(s[1..], p, i - 1);
      }
      if Contains(s[1..], p) {
        var i :| OccursAt(s[1..], p, i);
        assert s[i + 1..i + 1 + |p|] == s[1..][i..i + |p|];
        assert OccursAt(s, p, i + 1);
      }
    } else {
      assert forall i :: !OccursAt(s, p, i);
    }
  }

  /** A string containing `p` contains everything `p` contains. */
  lemma ContainsTransitive(s: string, p: string, q: string)
    requires Contains(s, p) && Contains(p, q)
    ensures Contains(s, q)
  {
    ContainsIffOccurrence(s, p);
    ContainsIffOccurrence(p, q);
    var i :| OccursAt(s, p, i);
    var j :| OccursAt(p, q, j);
    assert p == s[i..i + |p|];
    forall k | 0 <= k < |q| ensures s[i + j..i + j + |q|][k] == q[k] {
      assert s[i + j + k] == p[j + k];
    }
    assert s[i + j..i + j + |q|] == q;
    assert OccursAt(s, q, i + j);
    ContainsIffOccurrence(s, q);
  }

  /** An occurrence of `p` in `a + b` that cannot start inside `a` lies in `b`. */
  lemma {:induction false} ContainsAfterPrefix(a: string, b: string, p: string)
    requires forall i :: 0 <= i < |a| ==> !StartsWith((a + b)[i..], p)
    ensures Contains(a + b, p) <==> Contains(b, p)
    decreases |a|
  {
    if a != [] {
      assert !StartsWith((a + b)[0..], p);
      assert (a + b)[1..] == a[1..] + b;
      forall i | 0 <= i < |a[1..]| ensures !StartsWith((a[1..] + b)[i..], p) {
        assert (a + b)[i + 1..] == (a[1..] + b)[i..];
      }
      ContainsAfterPrefix(a[1..], b, p);
    } else {
      assert a + b == b;
    }
  }

  /** A pattern whose first character does not occur in `s` is not in `s`. */
  lemma {:induction false} HeadAbsent(s: string, p: string)
    requires p != [] && forall i :: 0 <= i < |s| ==> s[i] != p[0]
    ensures !Contains(s, p)
    decreases |s|
  {
    if s != [] {
      assert s[0] != p[0];
      assert !StartsWith(s, p);
      forall i | 0 <= i < |s[1..]| ensures s[1..][i] != p[0] {
        assert s[1..][i] == s[i + 1];
      }
      HeadAbsent(s[1..], p);
    }
  }

  /** `str::find` for a character: the index of its first occurrence. */
  function Find(s: string, c: char): (r: Option<nat>)
    ensures r.None? <==> c !in s
    ensures r.Some? ==> r.value < |s| && s[r.value] == c
    ensures r.Some? ==> forall k :: 0 <= k < r.value ==> s[k] != c
  {
    if s == [] then None
    else if s[0] == c then Some(0)
    else match Find(s[1..], c)
      case None => None
      case Some(i) => Some(i + 1)
  }

  /** `str::rfind` for a character: the index of its last occurrence. */
  function RFind(s: string, c: char): (r: Option<nat>)
    ensures r.None? <==> c !in s
    ensures r.Some? ==> r.value < |s| && s[r.value] == c
    ensures r.Some? ==> forall k :: r.value < k < |s| ==> s[k] != c
  {
    if s == [] then None
    else if s[|s| - 1] == c then Some(|s| - 1)
    else match RFind(s[..|s| - 1], c)
      case None =>
        assert s == s[..|s| - 1] + [s[|s| - 1]];
        None
      case Some(i) => Some(i)
  }

  /** `Find` is pinned down by its contract: the first occurrence. */
  lemma FindAt(s: string, c: char, i: int)
    requires 0 <= i < |s| && s[i] == c
    requires forall k :: 0 <= k < i ==> s[k] != c
    ensures Find(s, c) == Some(i)
  {
    assert c in s;
  }

  /** `RFind` is pinned down by its contract: the last occurrence. */
  lemma RFindAt(s: string, c: char, i: int)
    requires 0 <= i < |s| && s[i] == c
    requires forall k :: i < k < |s| ==> s[k] != c
    ensures RFind(s, c) == Some(i)
  {
    assert c in s;
  }
}
