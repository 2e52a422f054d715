/** The three JavaScript string operations the chat assistants and the contact
    form decide on: `trim`, `toLowerCase` and `includes`. */
module Text {

  /** The code points ECMAScript's `String.prototype.trim` strips: the
      WhiteSpace set (tab, vertical tab, form feed, space, no-break space,
      the byte-order mark and every other space separator) and the
      LineTerminator set (line feed, carriage return, line and paragraph
      separators). */
  predicate IsWhitespace(c: char)
  {
    || c == '\t' || c == '\U{B}' || c == '\U{C}' || c == ' ' || c == '\U{A0}' || c == '\U{FEFF}'
    || c == '\n' || c == '\r' || c == '\U{2028}' || c == '\U{2029}'
    || c == '\U{1680}' || ('\U{2000}' <= c <= '\U{200A}') || c == '\U{202F}' || c == '\U{205F}' || c == '\U{3000}'
  }

  /** `s` without its leading whitespace. */
  function TrimStart(s: string): (r: string)
    ensures |r| <= |s| && r == s[|s| - |r|..]
    ensures forall i :: 0 <= i < |s| - |r| ==> IsWhitespace(s[i])
    ensures r == [] || !IsWhitespace(r[0])
    decreases |s|
  {
    if s != [] && IsWhitespace(s[0]) then TrimStart(s[1..]) else s
  }

  /** `s` without its trailing whitespace. */
  function TrimEnd(s: string): (r: string)
    ensures |r| <= |s| && r == s[..|r|]
    ensures forall i :: |r| <= i < |s| ==> IsWhitespace(s[i])
    ensures r == [] || !IsWhitespace(r[|r| - 1])
    decreases |s|
  {
    if s != [] && IsWhitespace(s[|s| - 1]) then TrimEnd(s[..|s| - 1]) else s
  }

  /** `r` is the slice of `s` at index `i`, and everything of `s` before and
      after that slice is whitespace. */
  ghost predicate TrimmedAt(s: string, r: string, i: int)
  {
    && 0 <= i && i + |r| <= |s| && r == s[i..i + |r|]
    && (forall k :: 0 <= k < i ==> IsWhitespace(s[k]))
    && (forall k :: i + |r| <= k < |s| ==> IsWhitespace(s[k]))
  }

  /** `s.trim()`: an infix of `s` that starts and ends with a non-whitespace
      character (`TrimIsSlice` shows it is `s` without its leading and
      trailing whitespace); it is empty exactly when `s` is whitespace only. */
  function Trim(s: string): (r: string)
    ensures |r| <= |s|
    ensures r == [] || (!IsWhitespace(r[0]) && !IsWhitespace(r[|r| - 1]))
    ensures r == [] <==> forall i :: 0 <= i < |s| ==> IsWhitespace(s[i])
  {
    TrimEnd(TrimStart(s))
  }

  /** `s.trim()` is the slice of `s` left once its leading and its trailing
      whitespace are removed. */
  lemma TrimIsSlice(s: string)
    ensures exists i :: TrimmedAt(s, Trim(s), i)
  {
    var t := TrimStart(s);
    var r := TrimEnd(t);
    forall k | |s| - |t| + |r| <= k < |s|
      ensures IsWhitespace(s[k])
    {
      assert s[k] == t[k - (|s| - |t|)];
    }
    assert Trim(s) == r && TrimmedAt(s, r, |s| - |t|);
  }

  /** `s.trim() === ''`: the test by which both chat inputs refuse a submission. */
  predicate IsBlank(s: string)
  {
    Trim(s) == ""
  }

  /** ASCII lower-casing of one character. */
  function Lower(c: char): (d: char)
    ensures !('A' <= d <= 'Z')
    ensures !('A' <= c <= 'Z') ==> d == c
  {
    if 'A' <= c <= 'Z' then (c as int + 32) as char else c
  }

  /** `s.toLowerCase()`, restricted to ASCII letters. */
  function ToLower(s: string): (r: string)
    ensures |r| == |s|
    ensures forall i :: 0 <= i < |s| ==> r[i] == Lower(s[i])
  {
    if s == [] then [] else [Lower(s[0])] + ToLower(s[1..])
  }

  lemma ToLowerAppend(a: string, b: string)
    ensures ToLower(a + b) == ToLower(a) + ToLower(b)
  {
    var lowered, joined := ToLower(a + b), ToLower(a) + ToLower(b);
    forall i | 0 <= i < |lowered|
      ensures lowered[i] == joined[i]
    {
      if i < |a| {
        assert (a + b)[i] == a[i];
      } else {
        assert (a + b)[i] == b[i - |a|];
      }
    }
  }

  /** `s.includes(p)`. */
  predicate Includes(s: string, p: string)
    decreases |s|
  {
    |p| <= |s| && (s[..|p|] == p || (s != [] && Includes(s[1..], p)))
  }

  /** `p` occurs in `s` starting at index `k`. */
  ghost predicate OccursAt(s: string, p: string, k: int)
  {
    0 <= k && k + |p| <= |s| && s[k..k + |p|] == p
  }

  /** The scan `Includes` performs finds `p` exactly when `p` occurs
      somewhere in `s`. */
  lemma {:induction false} IncludesIff(s: string, p: string)
    ensures Includes(s, p) <==> exists k :: OccursAt(s, p, k)
    decreases |s|
  {
    if |p| <= |s| {
      if s[..|p|] == p {
        assert OccursAt(s, p, 0);
      } else {
        assert s != [];
        IncludesIff(s[1..], p);
        // an occurrence in s[1..] is one in s shifted by one, and back
        forall k | OccursAt(s[1..], p, k) ensures OccursAt(s, p, k + 1) {
          assert s[1..][k..k + |p|] == s[k + 1..k + 1 + |p|];
        }
        forall k | OccursAt(s, p, k) ensures OccursAt(s[1..], p, k - 1) {
          assert s[1..][k - 1..k - 1 + |p|] == s[k..k + |p|];
        }
      }
    }
  }

  /** Text around an occurrence does not hide it. */
  lemma IncludesInContext(a: string, s: string, b: string, p: string)
    requires Includes(s, p)
    ensures Includes(a + s + b, p)
  {
    IncludesIff(s, p);
    var k :| OccursAt(s, p, k);
    assert (a + s + b)[|a| + k..|a| + k + |p|] == s[k..k + |p|];
    assert OccursAt(a + s + b, p, |a| + k);
    IncludesIff(a + s + b, p);
  }

  /** A pattern with a character that `s` lacks is not included in `s`. */
  lemma AbsentCharacter(s: string, p: string, c: char)
    requires c in p && c !in s
    ensures !Includes(s, p)
  {
    IncludesIff(s, p);
    var j :| 0 <= j < |p| && p[j] == c;
    forall k | 0 <= k && k + |p| <= |s| ensures !OccursAt(s, p, k) {
      assert s[k..k + |p|][j] == s[k + j] != c;
    }
  }

  /** `s` contains `p` itself. */
  lemma IncludesItself(p: string)
    ensures Includes(p, p)
  {
    assert p[..|p|] == p;
  }
}
