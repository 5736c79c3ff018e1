/** Python string primitives used by the location normalizer and the search
    guard: whitespace as `str.strip()` and the regex class `\s` see it, ASCII
    digits and capitals, upper-casing as far as the search for ",US" can
    observe it, and substring search (`sub in s`). */
module Text {

  /** Python's `str.isspace()`: the characters `str.strip()` removes and the
      regex class `\s` matches in a `str` pattern. */
  predicate IsSpace(c: char) {
    var n := c as int;
    if n <= 0x20 then
      0x09 <= n <= 0x0D || 0x1C <= n
    else if n < 0x85 then
      false
    else
      || n == 0x85 || n == 0xA0 || n == 0x1680
      || 0x2000 <= n <= 0x200A
      || n == 0x2028 || n == 0x2029 || n == 0x202F || n == 0x205F || n == 0x3000
  }

  predicate IsAsciiDigit(c: char) {
    '0' <= c <= '9'
  }

  /** The regex class `[A-Z]`. */
  predicate IsAsciiUpper(c: char) {
    'A' <= c <= 'Z'
  }

  predicate AllSpace(s: string) {
    forall i :: 0 <= i < |s| ==> IsSpace(s[i])
  }

  /** `s.lstrip()`: the longest suffix of `s` that does not start with
      whitespace; everything dropped is whitespace. */
  function TrimStart(s: string): (r: string)
    ensures |r| <= |s| && r == s[|s| - |r|..]
    ensures AllSpace(s[..|s| - |r|])
    ensures r == [] || !IsSpace(r[0])
  {
    if s != [] && IsSpace(s[0]) then
      var r := TrimStart(s[1..]);
      assert AllSpace(s[..|s| - |r|]) by {
        forall i | 0 < i < |s| - |r| ensures IsSpace(s[i]) {
          assert s[i] == s[1..][..|s| - 1 - |r|][i - 1];
        }
      }
      r
    else
      s
  }

  /** `s.rstrip()`: the longest prefix of `s` that does not end with
      whitespace; everything dropped is whitespace. */
  function TrimEnd(s: string): (r: string)
    ensures |r| <= |s| && r == s[..|r|]
    ensures AllSpace(s[|r|..])
    ensures r == [] || !IsSpace(r[|r| - 1])
  {
    if s != [] && IsSpace(s[|s| - 1]) then
      var r := TrimEnd(s[..|s| - 1]);
      assert s[|r|..] == s[..|s| - 1][|r|..] + [s[|s| - 1]];
      r
    else
      s
  }

  /** `s.strip()`. */
  function Trim(s: string): (r: string)
    ensures |r| <= |s|
    ensures r == [] <==> AllSpace(s)
    ensures r == [] || (!IsSpace(r[0]) && !IsSpace(r[|r| - 1]))
  {
    var u := TrimStart(s);
    var r := TrimEnd(u);
    assert r != [] ==> r[0] == u[0];
    assert u != [] ==> u[0] == s[|s| - |u|];
    assert u == [] ==> s == s[..|s| - |u|];
    r
  }

  /** Whitespace after a string that does not end in whitespace is exactly
      what `rstrip` removes. */
  lemma {:induction false} TrimEndPadded(x: string, w: string)
    requires AllSpace(w)
    requires x == [] || !IsSpace(x[|x| - 1])
    ensures TrimEnd(x + w) == x
  {
    if w == [] {
      assert x + w == x;
    } else {
      assert (x + w)[|x + w| - 1] == w[|w| - 1];
      assert (x + w)[..|x + w| - 1] == x + w[..|w| - 1];
      TrimEndPadded(x, w[..|w| - 1]);
    }
  }

  /** Whitespace before a string that does not start with whitespace is
      exactly what `lstrip` removes. */
  lemma {:induction false} TrimStartPadded(w: string, x: string)
    requires AllSpace(w)
    requires x == [] || !IsSpace(x[0])
    ensures TrimStart(w + x) == x
  {
    if w == [] {
      assert w + x == x;
    } else {
      assert (w + x)[0] == w[0];
      assert (w + x)[1..] == w[1..] + x;
      TrimStartPadded(w[1..], x);
    }
  }

  /** `strip` is characterised by what it keeps: surround a string that
      neither starts nor ends with whitespace by whitespace on both sides,
      and `strip` gives it back. */
  lemma TrimPadded(a: string, m: string, b: string)
    requires AllSpace(a) && AllSpace(b)
    requires m == [] || (!IsSpace(m[0]) && !IsSpace(m[|m| - 1]))
    ensures Trim(a + m + b) == m
  {
    assert a + m + b == a + (m + b);
    if m == [] {
      assert AllSpace(a + m + b) by {
        forall i | 0 <= i < |a + m + b| ensures IsSpace((a + m + b)[i]) {
          if i >= |a| { assert (a + m + b)[i] == b[i - |a|]; }
        }
      }
    } else {
      assert (m + b)[0] == m[0];
      TrimStartPadded(a, m + b);
      TrimEndPadded(m, b);
    }
  }

  /** `strip` keeps a contiguous piece of its input and drops only
      whitespace around it. */
  lemma TrimSplit(s: string) returns (k: nat)
    ensures k + |Trim(s)| <= |s|
    ensures s[k..k + |Trim(s)|] == Trim(s)
    ensures AllSpace(s[..k]) && AllSpace(s[k + |Trim(s)|..])
  {
    var u := TrimStart(s);
    k := |s| - |u|;
    var r := TrimEnd(u);
    assert s[k..k + |r|] == u[..|r|];
    assert s[k + |r|..] == u[|r|..];
  }

  /** `strip` leaves alone a string that neither starts nor ends with
      whitespace. */
  lemma TrimUnpadded(m: string)
    requires m == [] || (!IsSpace(m[0]) && !IsSpace(m[|m| - 1]))
    ensures Trim(m) == m
  {
    var e: string := [];
    assert e + m + e == m;
    TrimPadded(e, m, e);
  }

  /** `strip` is idempotent. */
  lemma TrimTwice(s: string)
    ensures Trim(Trim(s)) == Trim(s)
  {
    TrimUnpadded(Trim(s));
  }

  /** The upper-case form of one character, as far as it can contribute to
      an occurrence of ",US": ASCII small letters map to capitals, and the
      four characters whose Unicode upper-case form contains 'S' (U+00DF,
      U+017F, U+FB05, U+FB06) are expanded; every other character is kept,
      since its upper-case form contains none of ',', 'U' and 'S'. */
  function UpperChar(c: char): string {
    var n := c as int;
    if 'a' <= c <= 'z' then [(n - 32) as char]
    else if n == 0xDF then "SS"
    else if n == 0x17F then "S"
    else if n == 0xFB05 || n == 0xFB06 then "ST"
    else [c]
  }

  /** `s.upper()`, character by character. */
  function Upper(s: string): string {
    if s == [] then [] else UpperChar(s[0]) + Upper(s[1..])
  }

  lemma {:induction false} UpperAppend(a: string, b: string)
    ensures Upper(a + b) == Upper(a) + Upper(b)
  {
    if a == [] {
      assert a + b == b;
    } else {
      assert (a + b)[0] == a[0];
      assert (a + b)[1..] == a[1..] + b;
      UpperAppend(a[1..], b);
    }
  }

  /** Upper-casing never creates a comma. */
  lemma {:induction false} UpperNoComma(s: string)
    requires ',' !in s
    ensures ',' !in Upper(s)
  {
    if s != [] {
      assert s[0] in s;
      assert ',' !in UpperChar(s[0]);
      assert forall c :: c in s[1..] ==> c in s;
      UpperNoComma(s[1..]);
    }
  }

  /** `sub` occurs in `s` starting at index `i`. */
  predicate OccursAt(s: string, sub: string, i: int) {
    0 <= i && i + |sub| <= |s| && s[i..i + |sub|] == sub
  }

  /** Python's `sub in s`, scanning from the left. */
  function Contains(s: string, sub: string): (r: bool)
    ensures r <==> exists i :: OccursAt(s, sub, i)
    decreases |s|
  {
    if |s| < |sub| then
      false
    else if s[..|sub|] == sub then
      assert OccursAt(s, sub, 0);
      true
    else
      var r := Contains(s[1..], sub);
      assert forall j :: OccursAt(s[1..], sub, j) <==> OccursAt(s, sub, j + 1) by {
        forall j ensures OccursAt(s[1..], sub, j) <==> OccursAt(s, sub, j + 1) {
          if 0 <= j && j + |sub| <= |s| - 1 {
            assert s[1..][j..j + |sub|] == s[j + 1..j + 1 + |sub|];
          }
        }
      }
      assert (exists i :: OccursAt(s, sub, i)) ==> r by {
        if i :| OccursAt(s, sub, i) {
          assert i != 0;
          assert OccursAt(s[1..], sub, i - 1);
        }
      }
      r
  }
}
