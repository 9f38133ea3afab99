/** Models of the three Python `str` operations the request handler relies on:
    the substring test `p in s`, `s.replace(pat, rep)` and `s.strip()` with no
    argument.  Strings are sequences of Unicode scalar values; a Python `str`
    may also hold lone surrogates, which these operations treat like any other
    character that is neither whitespace nor part of a pattern. */
module PyStr {

  /** `p` occurs in `s` starting at index `i`. */
  predicate OccursAt(s: string, p: string, i: int) {
    0 <= i && i + |p| <= |s| && s[i..i + |p|] == p
  }

  /** Python's `p in s`. */
  predicate Contains(s: string, p: string) {
    exists i | 0 <= i <= |s| :: OccursAt(s, p, i)
  }

  /** An infix of a string that does not contain `p` does not contain `p` either. */
  lemma InfixKeepsAbsence(s: string, i: int, j: int, p: string)
    requires 0 <= i <= j <= |s|
    requires !Contains(s, p)
    ensures !Contains(s[i..j], p)
  {
    var r := s[i..j];
    if k :| 0 <= k <= |r| && OccursAt(r, p, k) {
      forall m | 0 <= m < |p| ensures s[i + k..i + k + |p|][m] == p[m] {
        assert p[m] == r[k..k + |p|][m] == r[k + m] == s[i + k + m];
      }
      assert OccursAt(s, p, i + k);
    }
  }

  // ---------------------------------------------------------------------------
  // str.replace

  /** Python's `s.replace(pat, rep)` for a non-empty `pat`: the string is scanned
      from the left and every occurrence found is replaced, the scan resuming
      after it, so occurrences never overlap.  Replacing by text of the same
      length keeps the length; deleting never lengthens. */
  function Replace(s: string, pat: string, rep: string): (r: string)
    requires pat != []
    ensures |rep| == |pat| ==> |r| == |s|
    ensures rep == [] ==> |r| <= |s|
    decreases |s|
  {
    if |s| < |pat| then s
    else if s[..|pat|] == pat then rep + Replace(s[|pat|..], pat, rep)
    else [s[0]] + Replace(s[1..], pat, rep)
  }

  /** A string in which `pat` does not occur comes back from `replace` unchanged. */
  lemma {:induction false} ReplaceAbsent(s: string, pat: string, rep: string)
    requires pat != []
    requires !Contains(s, pat)
    ensures Replace(s, pat, rep) == s
    decreases |s|
  {
    if |s| >= |pat| {
      assert !OccursAt(s, pat, 0);
      InfixKeepsAbsence(s, 1, |s|, pat);
      assert s[1..|s|] == s[1..];
      ReplaceAbsent(s[1..], pat, rep);
    }
  }

  /** Replacing one character by one character is a pointwise map: the length is
      kept and each occurrence becomes exactly one replacement character. */
  lemma {:induction false} ReplaceCharPointwise(s: string, c: char, d: char)
    ensures |Replace(s, [c], [d])| == |s|
    ensures forall i | 0 <= i < |s| :: Replace(s, [c], [d])[i] == (if s[i] == c then d else s[i])
    decreases |s|
  {
    if |s| > 0 {
      ReplaceCharPointwise(s[1..], c, d);
      var head := if s[0] == c then d else s[0];
      assert Replace(s, [c], [d]) == [head] + Replace(s[1..], [c], [d]);
    }
  }

  // ---------------------------------------------------------------------------
  // str.strip

  /** Python's `c.isspace()`: the characters `str.strip()` removes when called
      without an argument (tab to carriage return, the four ASCII separators,
      space, and the Unicode spaces and line/paragraph separators).  The
      backtick, letters and digits are not whitespace. */
  predicate IsSpace(c: char)
    ensures c == ' ' || c == '\t' || c == '\n' || c == '\r' ==> IsSpace(c)
    ensures c == '`' || 'a' <= c <= 'z' || 'A' <= c <= 'Z' || '0' <= c <= '9' ==> !IsSpace(c)
  {
    var n := c as int;
    (9 <= n <= 13) || (28 <= n <= 32) || n == 0x85 || n == 0xA0 || n == 0x1680
    || (0x2000 <= n <= 0x200A) || n == 0x2028 || n == 0x2029 || n == 0x202F
    || n == 0x205F || n == 0x3000
  }

  predicate AllSpace(s: string) {
    forall i | 0 <= i < |s| :: IsSpace(s[i])
  }

  /** No whitespace at either end. */
  predicate Trimmed(s: string) {
    s == [] || (!IsSpace(s[0]) && !IsSpace(s[|s| - 1]))
  }

  /** `s` is `r` with whitespace added on either side, `i` characters of it on the left. */
  predicate PaddedAt(s: string, r: string, i: int) {
    0 <= i && i + |r| <= |s| && s[i..i + |r|] == r && AllSpace(s[..i]) && AllSpace(s[i + |r|..])
  }

  /** The length of the longest all-whitespace prefix of `s`. */
  function LeadingSpace(s: string): (k: nat)
    ensures k <= |s|
    ensures forall i | 0 <= i < k :: IsSpace(s[i])
    ensures k < |s| ==> !IsSpace(s[k])
    decreases |s|
  {
    if |s| > 0 && IsSpace(s[0]) then 1 + LeadingSpace(s[1..]) else 0
  }

  /** The length of the longest all-whitespace suffix of `s`. */
  function TrailingSpace(s: string): (k: nat)
    ensures k <= |s|
    ensures forall i | |s| - k <= i < |s| :: IsSpace(s[i])
    ensures k < |s| ==> !IsSpace(s[|s| - 1 - k])
    decreases |s|
  {
    if |s| > 0 && IsSpace(s[|s| - 1]) then 1 + TrailingSpace(s[..|s| - 1]) else 0
  }

  /** Python's `s.strip()`: the result has no surrounding whitespace and is what
      remains of `s` once whitespace is taken off both ends. */
  function Strip(s: string): (r: string)
    ensures Trimmed(r)
    ensures exists i | 0 <= i <= |s| :: PaddedAt(s, r, i)
  {
    var a := LeadingSpace(s);
    var t := s[a..];
    var r := t[..|t| - TrailingSpace(t)];
    assert s[a..a + |r|] == r;
    assert s[a + |r|..] == t[|r|..];
    assert PaddedAt(s, r, a);
    r
  }

  /** The two properties of `Strip` above determine its result: whitespace put
      around a trimmed string is exactly what `strip()` takes off again. */
  lemma StripPadded(a: string, r: string, b: string)
    requires AllSpace(a) && AllSpace(b) && Trimmed(r)
    ensures Strip(a + r + b) == r
  {
    var s := a + r + b;
    var x := Strip(s);
    var i :| 0 <= i <= |s| && PaddedAt(s, x, i);
    if r == [] {
      assert AllSpace(s) by {
        forall k | 0 <= k < |s| ensures IsSpace(s[k]) {
          if k < |a| { assert s[k] == a[k]; } else { assert s[k] == b[k - |a|]; }
        }
      }
    } else {
      assert s[|a|] == r[0];
      assert s[|a| + |r| - 1] == r[|r| - 1];
      assert i == |a|;
      assert i + |x| == |a| + |r|;
      assert s[|a|..|a| + |r|] == r;
    }
  }

  /** `strip()` leaves a string without surrounding whitespace unchanged. */
  lemma StripTrimmed(s: string)
    requires Trimmed(s)
    ensures Strip(s) == s
  {
  }
}
