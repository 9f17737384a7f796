/** The JavaScript string operations the dashboard relies on: `trim`, `toLowerCase`,
    `includes`, and the default comparison `Array.prototype.sort` uses for strings. */
module Text {

  /** Characters `String.prototype.trim` removes: ECMAScript's WhiteSpace and
      LineTerminator code points (tab, line feed, vertical tab, form feed, carriage
      return, space, no-break space, the Zs separators, LS, PS and the byte-order mark). */
  predicate IsJsSpace(c: char)
  {
    c in JsSpaces
  }

  const JsSpaces: set<char> := {
    '\t', '\n', '\U{000B}', '\U{000C}', '\r', ' ', '\U{00A0}', '\U{1680}',
    '\U{2000}', '\U{2001}', '\U{2002}', '\U{2003}', '\U{2004}', '\U{2005}',
    '\U{2006}', '\U{2007}', '\U{2008}', '\U{2009}', '\U{200A}',
    '\U{2028}', '\U{2029}', '\U{202F}', '\U{205F}', '\U{3000}', '\U{FEFF}'
  }

  /** Every character of `s` is trim-able whitespace (vacuously so for ""). */
  predicate IsBlank(s: string)
  {
    forall i :: 0 <= i < |s| ==> IsJsSpace(s[i])
  }

  /** How many whitespace characters `s` starts with. */
  function LeadingSpaces(s: string): (n: nat)
    ensures n <= |s|
    ensures forall i :: 0 <= i < n ==> IsJsSpace(s[i])
    ensures n == |s| || !IsJsSpace(s[n])
  {
    if s == [] || !IsJsSpace(s[0]) then 0 else 1 + LeadingSpaces(s[1..])
  }

  /** How many whitespace characters `s` ends with. */
  function TrailingSpaces(s: string): (n: nat)
    ensures n <= |s|
    ensures forall i :: |s| - n <= i < |s| ==> IsJsSpace(s[i])
    ensures n == |s| || !IsJsSpace(s[|s| - n - 1])
  {
    if s == [] || !IsJsSpace(s[|s| - 1]) then 0 else 1 + TrailingSpaces(s[..|s| - 1])
  }

  /** `String.prototype.trim`: `s` without its leading and trailing whitespace. It is
      empty exactly when `s` is blank (see `TrimShape` for the rest of its meaning). */
  function Trim(s: string): (r: string)
    ensures |r| <= |s|
    ensures r == [] <==> IsBlank(s)
  {
    var a := LeadingSpaces(s);
    if a == |s| then []
    else
      var b := TrailingSpaces(s);
      assert a < |s| - b;
      s[a..|s| - b]
  }

  /** `Trim(s)` is a contiguous slice of `s` with no whitespace at either end, and
      everything cut away on either side is whitespace. */
  lemma TrimShape(s: string)
    ensures var r := Trim(s);
      && (r == [] || (!IsJsSpace(r[0]) && !IsJsSpace(r[|r| - 1])))
      && exists k :: 0 <= k <= |s| - |r| && r == s[k..k + |r|] && IsBlank(s[..k]) && IsBlank(s[k + |r|..])
  {
    var a := LeadingSpaces(s);
    var r := Trim(s);
    if a == |s| {
      assert r == s[0..0] && s[..0] == [] && s[0..] == s;
    } else {
      var b := TrailingSpaces(s);
      assert r == s[a..a + |r|];
      assert IsBlank(s[..a]);
      assert IsBlank(s[a + |r|..]);
    }
  }

  /** The case mapping applied per character: ASCII capitals become small letters. */
  function LowerChar(c: char): char
  {
    if 'A' <= c <= 'Z' then (c as int + 32) as char else c
  }

  /** `String.prototype.toLowerCase`, restricted to the ASCII letters: no capital is
      left, every other character stays, and a capital becomes the small letter at the
      same place in the alphabet. */
  function Lower(s: string): (r: string)
    ensures |r| == |s| && NoCapitals(r)
    ensures forall i :: 0 <= i < |s| && !('A' <= s[i] <= 'Z') ==> r[i] == s[i]
    ensures forall i :: 0 <= i < |s| && 'A' <= s[i] <= 'Z' ==>
      'a' <= r[i] <= 'z' && r[i] as int - 'a' as int == s[i] as int - 'A' as int
  {
    seq(|s|, i requires 0 <= i < |s| => LowerChar(s[i]))
  }

  /** Lower-casing twice is lower-casing once. */
  lemma LowerIdempotent(s: string)
    ensures Lower(Lower(s)) == Lower(s)
  {
    assert forall i :: 0 <= i < |s| ==> LowerChar(LowerChar(s[i])) == LowerChar(s[i]);
  }

  /** `s` has no ASCII capital letter. */
  predicate NoCapitals(s: string)
  {
    forall i :: 0 <= i < |s| ==> !('A' <= s[i] <= 'Z')
  }

  /** A string without ASCII capitals is its own lower-case form. */
  lemma LowerOfLower(s: string)
    requires NoCapitals(s)
    ensures Lower(s) == s
  {
  }

  /** `p` occurs in `s` at position `k`. */
  predicate OccursAt(s: string, p: string, k: int)
  {
    0 <= k && k + |p| <= |s| && s[k..k + |p|] == p
  }

  /** `p` is a substring of `s`. */
  ghost predicate Substring(p: string, s: string)
  {
    exists k :: OccursAt(s, p, k)
  }

  /** A non-empty pattern whose first character does not appear in `s` does not occur in it. */
  lemma NotSubstringByFirstChar(p: string, s: string)
    requires p != [] && p[0] !in s
    ensures !Substring(p, s)
  {
  }

  /** `String.prototype.includes`: scan `s` for an occurrence of `p`. */
  function Includes(s: string, p: string): (r: bool)
    ensures r <==> Substring(p, s)
  {
    if |p| <= |s| && s[..|p|] == p then
      assert OccursAt(s, p, 0);
      true
    else if s == [] then
      assert forall k :: !OccursAt(s, p, k);
      false
    else
      var r := Includes(s[1..], p);
      assert forall k :: OccursAt(s[1..], p, k) ==> OccursAt(s, p, k + 1) by {
        forall k | OccursAt(s[1..], p, k) ensures OccursAt(s, p, k + 1) {
          assert s[k + 1..k + 1 + |p|] == s[1..][k..k + |p|];
        }
      }
      assert forall k :: OccursAt(s, p, k) ==> OccursAt(s[1..], p, k - 1) by {
        forall k | OccursAt(s, p, k) ensures OccursAt(s[1..], p, k - 1) {
          assert k != 0;
          assert s[1..][k - 1..k - 1 + |p|] == s[k..k + |p|];
        }
      }
      r
  }

  /** The order JavaScript's default sort gives strings: lexicographic by character,
      a proper prefix first. */
  predicate Before(a: string, b: string)
  {
    if a == [] then b != []
    else if b == [] then false
    else if a[0] != b[0] then a[0] < b[0]
    else Before(a[1..], b[1..])
  }

  /** No string comes before itself. */
  lemma {:induction false} BeforeIrreflexive(a: string)
    ensures !Before(a, a)
  {
    if a != [] {
      BeforeIrreflexive(a[1..]);
    }
  }

  /** The order is transitive. */
  lemma {:induction false} BeforeTransitive(a: string, b: string, c: string)
    requires Before(a, b) && Before(b, c)
    ensures Before(a, c)
  {
    if a != [] && a[0] == b[0] && b[0] == c[0] {
      BeforeTransitive(a[1..], b[1..], c[1..]);
    }
  }

  /** Any two different strings are ordered one way or the other. */
  lemma {:induction false} BeforeTotal(a: string, b: string)
    requires a != b
    ensures Before(a, b) || Before(b, a)
  {
    if a != [] && b != [] && a[0] == b[0] {
      assert a == [a[0]] + a[1..] && b == [b[0]] + b[1..];
      BeforeTotal(a[1..], b[1..]);
    }
  }

  /** Never both ways round. */
  lemma {:induction false} BeforeAsymmetric(a: string, b: string)
    requires Before(a, b)
    ensures !Before(b, a)
  {
    if a != [] && b != [] && a[0] == b[0] {
      BeforeAsymmetric(a[1..], b[1..]);
    }
  }
}
