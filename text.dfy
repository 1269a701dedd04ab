/**
 * The string operations the stock application relies on: JavaScript's
 * `String.prototype.trim`, lower-casing (`toLowerCase` in the browser and
 * `lower()` in the database), SQL `LIKE` matching, and the order used to
 * sort material names.
 */
module Text {

  /** The characters JavaScript's `trim` removes: WhiteSpace and LineTerminator. */
  predicate IsWhitespace(c: char)
  {
    c == '\t' || c == '\n' || c == '\U{B}' || c == '\U{C}' || c == '\r' || c == ' '
    || c == '\U{A0}' || c == '\U{1680}' || ('\U{2000}' <= c <= '\U{200A}')
    || c == '\U{2028}' || c == '\U{2029}' || c == '\U{202F}' || c == '\U{205F}'
    || c == '\U{3000}' || c == '\U{FEFF}'
  }

  function TrimStart(s: string): (r: string)
    ensures |r| <= |s| && r == s[|s| - |r|..]
    ensures r == [] || !IsWhitespace(r[0])
    ensures forall i :: 0 <= i < |s| - |r| ==> IsWhitespace(s[i])
  {
    if s != [] && IsWhitespace(s[0]) then TrimStart(s[1..]) else s
  }

  function TrimEnd(s: string): (r: string)
    ensures |r| <= |s| && r == s[..|r|]
    ensures r == [] || !IsWhitespace(r[|r| - 1])
    ensures forall i :: |r| <= i < |s| ==> IsWhitespace(s[i])
  {
    if s != [] && IsWhitespace(s[|s| - 1]) then TrimEnd(s[..|s| - 1]) else s
  }

  /** `s.trim()`: `s` without its leading and trailing white space. */
  function Trim(s: string): (r: string)
    ensures |r| <= |s|
    ensures NoOuterWhitespace(r)
  {
    TrimEnd(TrimStart(s))
  }

  /** `r` neither starts nor ends with white space. */
  predicate NoOuterWhitespace(r: string)
  {
    r == [] || (!IsWhitespace(r[0]) && !IsWhitespace(r[|r| - 1]))
  }

  /** `r` occurs in `s` at `i`, with only white space before and after it. */
  predicate PaddedAt(r: string, s: string, i: int)
  {
    OccursAt(r, s, i)
    && (forall k :: 0 <= k < i ==> IsWhitespace(s[k]))
    && (forall k :: i + |r| <= k < |s| ==> IsWhitespace(s[k]))
  }

  /**
   * What `trim` promises: the result sits inside `s` with only white space
   * around it, and neither starts nor ends with white space.
   */
  lemma TrimSpec(s: string)
    ensures NoOuterWhitespace(Trim(s))
    ensures exists i :: PaddedAt(Trim(s), s, i)
  {
    var t := TrimStart(s);
    var r := TrimEnd(t);
    assert Trim(s) == r;
    assert r != [] ==> r[0] == t[0];
    SliceOfSuffix(s, t, r);
    assert PaddedAt(r, s, |s| - |t|);
  }

  /** A prefix `r` of a suffix `t` of `s` sits in `s` where `t` starts. */
  lemma SliceOfSuffix(s: string, t: string, r: string)
    requires |t| <= |s| && t == s[|s| - |t|..]
    requires |r| <= |t| && r == t[..|r|]
    ensures OccursAt(r, s, |s| - |t|)
    ensures forall k :: |s| - |t| + |r| <= k < |s| ==> s[k] == t[k - (|s| - |t|)]
  {
  }

  /** Trimming a trimmed string changes nothing. */
  lemma TrimIdempotent(s: string)
    ensures Trim(Trim(s)) == Trim(s)
  {
    var r := Trim(s);
    assert TrimStart(r) == r;
    assert TrimEnd(r) == r;
  }

  /** A string is blank (JavaScript-falsy once trimmed) exactly when every character is white space. */
  lemma TrimEmptyIffBlank(s: string)
    ensures Trim(s) == [] <==> forall i :: 0 <= i < |s| ==> IsWhitespace(s[i])
  {
    var t := TrimStart(s);
    if t != [] {
      assert |TrimEnd(t)| > 0 by {
        assert !IsWhitespace(t[0]);
      }
      assert !IsWhitespace(s[|s| - |t|]);
    }
  }

  /** The empty string is blank. */
  lemma TrimEmpty()
    ensures Trim("") == ""
  {
    TrimEmptyIffBlank("");
  }

  /** Lower-casing of one character: the ASCII and Latin-1 capitals, shifted by 0x20. */
  function LowerChar(c: char): (r: char)
    ensures ('A' <= c <= 'Z') ==> 'a' <= r <= 'z'
    ensures !IsUpper(c) ==> r == c
  {
    if IsUpper(c) then (c as int + 0x20) as char else c
  }

  predicate IsUpper(c: char)
  {
    ('A' <= c <= 'Z') || ('\U{C0}' <= c <= '\U{DE}' && c != '\U{D7}')
  }

  /** `s.toLowerCase()` / `lower(s)`. */
  function Lower(s: string): (r: string)
    ensures |r| == |s|
  {
    if s == [] then [] else [LowerChar(s[0])] + Lower(s[1..])
  }

  /** Lower-casing works character by character. */
  lemma {:induction false} LowerAt(s: string)
    ensures forall i :: 0 <= i < |s| ==> Lower(s)[i] == LowerChar(s[i])
  {
    if s != [] {
      LowerAt(s[1..]);
    }
  }

  lemma LowerCharIdempotent(c: char)
    ensures LowerChar(LowerChar(c)) == LowerChar(c)
  {
  }

  /** Lower-casing twice is lower-casing once. */
  lemma LowerIdempotent(s: string)
    ensures Lower(Lower(s)) == Lower(s)
  {
    LowerAt(s);
    LowerAt(Lower(s));
    forall i | 0 <= i < |s|
      ensures Lower(Lower(s))[i] == Lower(s)[i]
    {
      LowerCharIdempotent(s[i]);
    }
  }

  lemma LowerAppend(a: string, b: string)
    ensures Lower(a + b) == Lower(a) + Lower(b)
  {
    LowerAt(a);
    LowerAt(b);
    LowerAt(a + b);
    assert forall i :: 0 <= i < |a + b| ==> Lower(a + b)[i] == (Lower(a) + Lower(b))[i];
  }

  // ---------------------------------------------------------------------------
  // SQL LIKE, as PostgreSQL evaluates it: `%` matches any run of characters,
  // `_` any one character, and a backslash makes the next character literal.
  // ---------------------------------------------------------------------------

  function Like(s: string, p: string): (r: bool)
    ensures IsPlainPattern(p) ==> (r <==> s == p)
    decreases |s| + |p|
  {
    assert p != [] ==> p == [p[0]] + p[1..];
    assert s != [] ==> s == [s[0]] + s[1..];
    if p == [] then s == []
    else if p[0] == '%' then Like(s, p[1..]) || (s != [] && Like(s[1..], p))
    else if p[0] == '_' then s != [] && Like(s[1..], p[1..])
    else if p[0] == '\\' && |p| >= 2 then s != [] && s[0] == p[1] && Like(s[1..], p[2..])
    else s != [] && s[0] == p[0] && Like(s[1..], p[1..])
  }

  /** True when `p` has none of LIKE's special characters. */
  predicate IsPlainPattern(p: string)
  {
    forall i :: 0 <= i < |p| ==> p[i] != '%' && p[i] != '_' && p[i] != '\\'
  }

  predicate IsPrefix(p: string, s: string)
  {
    |p| <= |s| && s[..|p|] == p
  }

  /** `p` occurs in `s` starting at index `i`. */
  predicate OccursAt(p: string, s: string, i: int)
  {
    0 <= i <= |s| - |p| && s[i..i + |p|] == p
  }

  /** `p` occurs in `s` as a contiguous slice. */
  ghost predicate IsSubstring(p: string, s: string)
  {
    exists i :: OccursAt(p, s, i)
  }

  /** A plain pattern followed by `%` matches exactly the strings it is a prefix of. */
  lemma {:induction false} LikePrefix(s: string, p: string)
    requires IsPlainPattern(p)
    ensures Like(s, p + "%") <==> IsPrefix(p, s)
    decreases |p|
  {
    if p == [] {
      assert p + "%" == "%";
      LikeAnything(s);
    } else {
      assert (p + "%")[0] == p[0];
      assert (p + "%")[1..] == p[1..] + "%";
      if s != [] {
        LikePrefix(s[1..], p[1..]);
        if s[0] == p[0] && IsPrefix(p[1..], s[1..]) {
          assert s[..|p|] == [s[0]] + s[1..][..|p| - 1];
        }
      }
    }
  }

  /** `%` alone matches every string. */
  lemma {:induction false} LikeAnything(s: string)
    ensures Like(s, "%")
    decreases |s|
  {
    if s != [] {
      LikeAnything(s[1..]);
    }
    assert "%"[1..] == [];
  }

  /**
   * The search the material list runs: a plain term wrapped in `%` matches
   * exactly the names that contain it.
   */
  lemma {:induction false} LikeContains(s: string, p: string)
    requires IsPlainPattern(p)
    ensures Like(s, "%" + p + "%") <==> IsSubstring(p, s)
    decreases |s|
  {
    var pat := "%" + p + "%";
    assert pat[1..] == p + "%";
    LikePrefix(s, p);
    if s == [] {
      if IsSubstring(p, s) {
        var i :| OccursAt(p, s, i);
        assert IsPrefix(p, s);
      }
      if IsPrefix(p, s) {
        assert OccursAt(p, s, 0);
      }
    } else {
      LikeContains(s[1..], p);
      if IsSubstring(p, s) && !IsPrefix(p, s) {
        var i :| OccursAt(p, s, i);
        assert i != 0;
        OccursAtTail(p, s, i);
      }
      if IsSubstring(p, s[1..]) {
        var i :| OccursAt(p, s[1..], i);
        OccursAtTail(p, s, i + 1);
      }
      if IsPrefix(p, s) {
        assert OccursAt(p, s, 0);
      }
    }
  }

  /** Past the first character, an occurrence in `s` is one in its tail, one place earlier. */
  lemma OccursAtTail(p: string, s: string, i: int)
    requires s != [] && i > 0
    ensures OccursAt(p, s, i) <==> OccursAt(p, s[1..], i - 1)
  {
    if 0 < i <= |s| - |p| {
      assert s[i..i + |p|] == s[1..][i - 1..i - 1 + |p|];
    }
  }

  lemma LowerPlain(p: string)
    requires IsPlainPattern(p)
    ensures IsPlainPattern(Lower(p))
  {
    LowerAt(p);
  }

  // ---------------------------------------------------------------------------
  // The order on names: lexicographic on code points.
  // ---------------------------------------------------------------------------

  /** `a` comes no later than `b` in lexicographic order. */
  predicate LexLe(a: string, b: string)
    decreases |a|
  {
    a == [] || (b != [] && (a[0] < b[0] || (a[0] == b[0] && LexLe(a[1..], b[1..]))))
  }

  lemma {:induction false} LexLeTotal(a: string, b: string)
    ensures LexLe(a, b) || LexLe(b, a)
    decreases |a|
  {
    if a != [] && b != [] && a[0] == b[0] {
      LexLeTotal(a[1..], b[1..]);
    }
  }

  lemma {:induction false} LexLeTransitive(a: string, b: string, c: string)
    requires LexLe(a, b) && LexLe(b, c)
    ensures LexLe(a, c)
    decreases |a|
  {
    if a != [] && b != [] && c != [] && a[0] == b[0] == c[0] {
      LexLeTransitive(a[1..], b[1..], c[1..]);
    }
  }

  lemma {:induction false} LexLeAntisymmetric(a: string, b: string)
    requires LexLe(a, b) && LexLe(b, a)
    ensures a == b
    decreases |a|
  {
    if a != [] && b != [] {
      LexLeAntisymmetric(a[1..], b[1..]);
      assert a == [a[0]] + a[1..];
      assert b == [b[0]] + b[1..];
    }
  }
}
