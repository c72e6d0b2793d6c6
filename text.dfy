/** The string primitives the weather component relies on: JavaScript's
    `toLowerCase`, `includes` and `trim`, restated over `seq<char>`. */
module Text {

  /** True for the ASCII capital letters, the only characters `Lower` changes. */
  predicate IsUpper(c: char) {
    'A' <= c <= 'Z'
  }

  /** ASCII lowercasing of one character. */
  function LowerChar(c: char): (d: char)
    ensures !IsUpper(d)
    ensures IsUpper(c) ==> d as int == c as int + 32
    ensures !IsUpper(c) ==> d == c
  {
    if IsUpper(c) then (c as int + 32) as char else c
  }

  /** `String.prototype.toLowerCase`, restricted to ASCII letters. */
  function Lower(s: string): (r: string)
    ensures |r| == |s|
    ensures forall i :: 0 <= i < |s| ==> r[i] == LowerChar(s[i])
  {
    if s == [] then [] else [LowerChar(s[0])] + Lower(s[1..])
  }

  /** `String.prototype.includes`: `pat` occupies some slice of `s`
      (the empty pattern occurs in every string). */
  predicate Includes(s: string, pat: string) {
    exists i | 0 <= i <= |s| - |pat| :: OccursAt(s, pat, i)
  }

  /** `pat` occupies `s[i..i + |pat|]`. */
  predicate OccursAt(s: string, pat: string, i: int) {
    0 <= i && i + |pat| <= |s| && s[i..i + |pat|] == pat
  }

  /** JavaScript's whitespace for `trim`: the WhiteSpace code points (tab,
      vertical tab, form feed, space, no-break space, the byte order mark and
      the space separators) and the LineTerminator code points. */
  predicate IsWhiteSpace(c: char) {
    var n := c as int;
    n == 0x09 || n == 0x0A || n == 0x0B || n == 0x0C || n == 0x0D || n == 0x20 ||
    n == 0xA0 || n == 0x1680 || (0x2000 <= n <= 0x200A) || n == 0x2028 || n == 0x2029 ||
    n == 0x202F || n == 0x205F || n == 0x3000 || n == 0xFEFF
  }

  /** Drops the leading whitespace. */
  function TrimStart(s: string): (r: string)
    ensures |r| <= |s| && r == s[|s| - |r|..]
    ensures forall k :: 0 <= k < |s| - |r| ==> IsWhiteSpace(s[k])
    ensures r != [] ==> !IsWhiteSpace(r[0])
  {
    if s != [] && IsWhiteSpace(s[0]) then TrimStart(s[1..]) else s
  }

  /** Drops the trailing whitespace. */
  function TrimEnd(s: string): (r: string)
    ensures |r| <= |s| && r == s[..|r|]
    ensures forall k :: |r| <= k < |s| ==> IsWhiteSpace(s[k])
    ensures r != [] ==> !IsWhiteSpace(r[|r| - 1])
  {
    if s != [] && IsWhiteSpace(s[|s| - 1]) then TrimEnd(s[..|s| - 1]) else s
  }

  /** `String.prototype.trim`: the slice of `s` that starts where its
      leading whitespace ends and neither starts nor ends with whitespace;
      empty exactly when `s` is all whitespace. */
  function Trim(s: string): (r: string)
    ensures r == [] <==> forall k :: 0 <= k < |s| ==> IsWhiteSpace(s[k])
    ensures r != [] ==> !IsWhiteSpace(r[0]) && !IsWhiteSpace(r[|r| - 1])
    ensures OccursAt(s, r, |s| - |TrimStart(s)|)
    ensures forall k :: |s| - |TrimStart(s)| + |r| <= k < |s| ==> IsWhiteSpace(s[k])
    ensures Includes(s, r)
  {
    var t := TrimStart(s);
    TrimIsSlice(s, t);
    TrimBlank(s, t);
    TrimEnd(t)
  }

  /** Trimming the end of the start-trimmed string leaves a slice of `s`
      that starts with a non-whitespace character, if any. */
  lemma {:induction false} TrimIsSlice(s: string, t: string)
    requires |t| <= |s| && t == s[|s| - |t|..]
    ensures OccursAt(s, TrimEnd(t), |s| - |t|)
    ensures TrimEnd(t) != [] ==> TrimEnd(t)[0] == t[0]
  {
    var r := TrimEnd(t);
    var i := |s| - |t|;
    assert r == t[..|r|];
    assert s[i..i + |r|] == s[i..][..|r|];
  }

  /** Nothing is left after trimming both ends exactly when `s` is all
      whitespace. */
  lemma {:induction false} TrimBlank(s: string, t: string)
    requires t == TrimStart(s)
    ensures TrimEnd(t) == [] <==> forall k :: 0 <= k < |s| ==> IsWhiteSpace(s[k])
  {
    var i := |s| - |t|;
    if TrimEnd(t) != [] {
      assert t != [] && t[0] == s[i];
    }
  }

  /** Lowercasing is idempotent. */
  lemma {:induction false} LowerIdempotent(s: string)
    ensures Lower(Lower(s)) == Lower(s)
  {
    assert forall k :: 0 <= k < |s| ==> LowerChar(LowerChar(s[k])) == LowerChar(s[k]);
  }

  /** A string without capital letters is its own lowercase. */
  lemma {:induction false} LowerUnchanged(s: string)
    requires forall c :: c in s ==> !IsUpper(c)
    ensures Lower(s) == s
  {
    assert forall k :: 0 <= k < |s| ==> LowerChar(s[k]) == s[k];
  }

  /** Lowercasing commutes with slicing. */
  lemma {:induction false} LowerSlice(s: string, i: int, j: int)
    requires 0 <= i <= j <= |s|
    ensures Lower(s[i..j]) == Lower(s)[i..j]
  {
    forall k | 0 <= k < j - i
      ensures Lower(s[i..j])[k] == Lower(s)[i..j][k]
    {
      assert s[i..j][k] == s[i + k];
    }
  }

  /** An occurrence survives lowercasing: if `s` includes `pat` in some
      spelling, the lowercased `s` includes the lowercased `pat`. */
  lemma {:induction false} IncludesLower(s: string, pat: string)
    requires Includes(s, pat)
    ensures Includes(Lower(s), Lower(pat))
  {
    var i :| 0 <= i <= |s| - |pat| && OccursAt(s, pat, i);
    LowerSlice(s, i, i + |pat|);
    assert OccursAt(Lower(s), Lower(pat), i);
  }

  /** A pattern with a character that `s` lacks does not occur in `s`. */
  lemma {:induction false} NotIncludes(s: string, pat: string, c: char)
    requires c in pat && c !in s
    ensures !Includes(s, pat)
  {
    var j :| 0 <= j < |pat| && pat[j] == c;
    forall i | 0 <= i <= |s| - |pat|
      ensures !OccursAt(s, pat, i)
    {
      assert s[i..i + |pat|][j] == s[i + j] != c;
    }
  }

  /** A pattern with a character that no character of `s` lowercases to
      does not occur in the lowercased `s`. */
  lemma {:induction false} NotIncludesLower(s: string, pat: string, c: char)
    requires c in pat && forall k :: 0 <= k < |s| ==> LowerChar(s[k]) != c
    ensures !Includes(Lower(s), pat)
  {
    NotIncludes(Lower(s), pat, c);
  }
}
