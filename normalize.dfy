/** The rewrite `fetch_weather` applies to the user's location before it is
    sent to the provider as the `q` query parameter (app.py, lines 19-31):
    strip it, mark a five-digit zip code as American, otherwise drop a
    trailing state abbreviation and append ",US" unless the upper-cased text
    already holds ",US". */
module Normalize {
  import opened Text

  /** The country marker appended to queries. */
  const CountrySuffix: string := ",US"

  /** `cleaned.isdigit() and len(cleaned) == 5`. */
  predicate IsZip(t: string) {
    |t| == 5 && forall i :: 0 <= i < 5 ==> IsAsciiDigit(t[i])
  }

  /** `u` is a whole match of the regex `,\s*[A-Z]{2}`: a comma, any
      whitespace, two ASCII capitals. */
  predicate IsStateSuffix(u: string) {
    && |u| >= 3
    && u[0] == ','
    && AllSpace(u[1..|u| - 2])
    && IsAsciiUpper(u[|u| - 2])
    && IsAsciiUpper(u[|u| - 1])
  }

  /** `re.sub(r',\s*[A-Z]{2}$', '', t)` where `$` is the very end of `t`:
      the comma can only sit just before the whitespace run that precedes the
      last two characters, so at most one match exists. */
  function StripAtEnd(t: string): string {
    if |t| >= 2 && IsAsciiUpper(t[|t| - 2]) && IsAsciiUpper(t[|t| - 1]) then
      var head := TrimEnd(t[..|t| - 2]);
      if head != [] && head[|head| - 1] == ',' then head[..|head| - 1] else t
    else
      t
  }

  /** `re.sub(r',\s*[A-Z]{2}$', '', t)`. Python's `$` also matches just
      before a final newline, which then survives the substitution. */
  function StripStateSuffix(t: string): string {
    if t != [] && t[|t| - 1] == '\n' then
      StripAtEnd(t[..|t| - 1]) + "\n"
    else
      StripAtEnd(t)
  }

  /** `',US' in s.upper()`. */
  predicate HasUSMarker(s: string) {
    Contains(Upper(s), CountrySuffix)
  }

  /** The query string `fetch_weather` sends for `location`: the rewrite
      below applied to the stripped input. */
  function NormalizeLocation(location: string): string {
    NormalizeStripped(Trim(location))
  }

  /** The rewrite of an already stripped location `cleaned`. */
  function NormalizeStripped(cleaned: string): string {
    if IsZip(cleaned) then
      cleaned + CountrySuffix
    else
      var stripped := StripStateSuffix(cleaned);
      if !HasUSMarker(stripped) then stripped + CountrySuffix else stripped
  }

  /** Appending ",US" always produces the marker the normalizer looks for. */
  lemma MarkerAppended(s: string)
    ensures HasUSMarker(s + CountrySuffix)
  {
    var t := s + CountrySuffix;
    assert t[|s|] == ',' && t[|s| + 1] == 'U' && t[|s| + 2] == 'S';
    MarkerAt(t, |s|);
  }

  /** The upper-cased query always contains ",US" (app.py, lines 22-31). */
  lemma NormalizeHasMarker(location: string)
    ensures HasUSMarker(NormalizeLocation(location))
  {
    var t := Trim(location);
    if IsZip(t) {
      MarkerAppended(t);
    } else {
      MarkerAppended(StripStateSuffix(t));
    }
  }

  /** A comma followed by 'u' or 'U' and then 's' or 'S' is the marker,
      wherever it stands. */
  lemma MarkerAt(s: string, i: nat)
    requires i + 3 <= |s| && s[i] == ','
    requires s[i + 1] == 'u' || s[i + 1] == 'U'
    requires s[i + 2] == 's' || s[i + 2] == 'S'
    ensures HasUSMarker(s)
  {
    var p, q := s[..i], s[i..];
    assert s == p + q;
    UpperAppend(p, q);
    MarkerUpper(q);
    var u, v := Upper(p), Upper(q[3..]);
    assert Upper(s) == u + CountrySuffix + v;
    assert (u + CountrySuffix + v)[|u|..|u| + 3] == CountrySuffix;
    assert OccursAt(Upper(s), CountrySuffix, |u|);
  }

  /** A comma followed by 'u' or 'U' and 's' or 'S' upper-cases to ",US". */
  lemma MarkerUpper(q: string)
    requires |q| >= 3 && q[0] == ','
    requires q[1] == 'u' || q[1] == 'U'
    requires q[2] == 's' || q[2] == 'S'
    ensures Upper(q) == CountrySuffix + Upper(q[3..])
  {
    var rest := q[3..];
    calc {
      Upper(q);
      UpperChar(q[0]) + Upper(q[1..]);
      { assert q[1..][1..] == q[2..]; }
      UpperChar(q[0]) + (UpperChar(q[1]) + Upper(q[2..]));
      { assert q[2..][1..] == rest; }
      UpperChar(q[0]) + (UpperChar(q[1]) + (UpperChar(q[2]) + Upper(rest)));
      { MarkerChars(q[0], q[1], q[2]); }
      [','] + (['U'] + (['S'] + Upper(rest)));
      CountrySuffix + Upper(rest);
    }
  }

  /** The three characters of the marker, in either case, upper-case to
      the marker's own characters. */
  lemma MarkerChars(c: char, u: char, s: char)
    requires c == ',' && (u == 'u' || u == 'U') && (s == 's' || s == 'S')
    ensures UpperChar(c) == [','] && UpperChar(u) == ['U'] && UpperChar(s) == ['S']
  {
  }

  /** A string without a comma never holds the marker, whatever its case. */
  lemma NoCommaNoMarker(s: string)
    requires ',' !in s
    ensures !HasUSMarker(s)
  {
    UpperNoComma(s);
    var u := Upper(s);
    forall i ensures !OccursAt(u, CountrySuffix, i) {
      if 0 <= i < |u| {
        assert u[i] in u;
        assert u[i] != ',';
      }
    }
  }

  /** Removing a state suffix: when `t` is `t[..k]` followed by a comma,
      whitespace and two capitals, the substitution leaves `t[..k]`. */
  lemma StripAtSuffix(t: string, k: nat)
    requires k <= |t| && IsStateSuffix(t[k..])
    ensures StripAtEnd(t) == t[..k]
  {
    var w := t[k + 1..|t| - 2];
    assert t[k..][1..|t[k..]| - 2] == w;
    assert t[..|t| - 2] == (t[..k] + [',']) + w;
    TrimEndPadded(t[..k] + [','], w);
    assert (t[..k] + [','])[..k] == t[..k];
  }

  /** The substitution only ever removes a state suffix: either `t` is left
      as it is, or what it returns is a proper prefix of `t` and the part
      removed is a comma, whitespace and two capitals. */
  lemma StripShape(t: string)
    ensures StripAtEnd(t) <= t
    ensures StripAtEnd(t) == t || IsStateSuffix(t[|StripAtEnd(t)|..])
  {
    if |t| >= 2 && IsAsciiUpper(t[|t| - 2]) && IsAsciiUpper(t[|t| - 1]) {
      var head := TrimEnd(t[..|t| - 2]);
      if head != [] && head[|head| - 1] == ',' {
        var k := |head| - 1;
        assert t[..k] == head[..k];
        var u := t[k..];
        assert u[0] == head[k];
        assert u[1..|u| - 2] == t[..|t| - 2][|head|..];
      }
    }
  }

  /** A trimmed string ends neither in whitespace nor, therefore, in a
      newline, so only the end-of-string reading of `$` applies to it. */
  lemma StripTrimmed(s: string)
    ensures StripStateSuffix(Trim(s)) == StripAtEnd(Trim(s))
  {
    var t := Trim(s);
    assert t != [] ==> !IsSpace(t[|t| - 1]);
  }

  /** A trimmed five-digit zip code is sent as itself followed by ",US"
      (app.py, lines 20-24). */
  lemma NormalizeZip(location: string)
    requires IsZip(Trim(location))
    ensures NormalizeLocation(location) == Trim(location) + CountrySuffix
    ensures |NormalizeLocation(location)| == 8
  {
  }

  /** Any other input that ends in a comma, whitespace and two capitals loses
      that suffix before the marker check (app.py, lines 26-31). */
  lemma NormalizeStripsState(location: string, k: nat)
    requires !IsZip(Trim(location))
    requires k <= |Trim(location)| && IsStateSuffix(Trim(location)[k..])
    ensures var p := Trim(location)[..k];
      NormalizeLocation(location) == if HasUSMarker(p) then p else p + CountrySuffix
  {
    StripTrimmed(location);
    StripAtSuffix(Trim(location), k);
  }

  /** Outside the zip-code case ",US" is appended exactly when the stripped
      text, upper-cased, does not already contain ",US"; otherwise the
      stripped text is sent unchanged (app.py, lines 29-31). */
  lemma NormalizeAppendIff(location: string)
    requires !IsZip(Trim(location))
    ensures var s := StripStateSuffix(Trim(location));
      && (NormalizeLocation(location) == s + CountrySuffix <==> !HasUSMarker(s))
      && (NormalizeLocation(location) == s <==> HasUSMarker(s))
  {
    var s := StripStateSuffix(Trim(location));
    assert |s + CountrySuffix| != |s|;
  }

  /** The query is a prefix of the trimmed input, possibly followed by ",US",
      so it is at most three characters longer (app.py, lines 20, 29, 31). */
  lemma NormalizeShape(location: string)
    ensures var t, r := Trim(location), NormalizeLocation(location);
      && |r| <= |t| + 3
      && (r <= t || (|r| >= 3 && r[..|r| - 3] <= t && r[|r| - 3..] == CountrySuffix))
  {
    var t, r := Trim(location), NormalizeLocation(location);
    if IsZip(t) {
      SuffixSplit(t);
    } else {
      StripTrimmed(location);
      StripShape(t);
      var s := StripStateSuffix(t);
      if r != s {
        SuffixSplit(s);
      }
    }
  }

  /** `s + ",US"` splits back into `s` and the marker. */
  lemma SuffixSplit(s: string)
    ensures var r := s + CountrySuffix;
      |r| == |s| + 3 && r[..|s|] == s && r[|s|..] == CountrySuffix
  {
  }

  /** A stripped input without a comma has no state suffix to lose and
      cannot hold the marker, so it is sent with ",US" appended, whether or
      not it counts as a zip code (app.py, lines 20-31). */
  lemma NoCommaAppended(location: string)
    requires ',' !in Trim(location)
    ensures NormalizeLocation(location) == Trim(location) + CountrySuffix
  {
    var t := Trim(location);
    if !IsZip(t) {
      StripTrimmed(location);
      StripShape(t);
      NoCommaNoMarker(t);
    }
  }

  /** Stripping the input first changes nothing, since the normalizer strips
      it again. */
  lemma NormalizeIgnoresOuterSpace(location: string)
    ensures NormalizeLocation(Trim(location)) == NormalizeLocation(location)
  {
    TrimTwice(location);
  }

  /** A city, a comma, whitespace and two capitals: the city is followed
      by a state suffix. */
  lemma StateInput(city: string, w: string, a: char, b: char)
    requires AllSpace(w) && IsAsciiUpper(a) && IsAsciiUpper(b)
    ensures var t := city + "," + w + [a, b];
      |city| <= |t| && t[..|city|] == city && IsStateSuffix(t[|city|..])
  {
    var u := [','] + w + [a, b];
    var t := city + u;
    assert t[..|city|] == city && t[|city|..] == u;
    assert t == city + "," + w + [a, b];
    assert u[1..|u| - 2] == w;
  }

  /** Any two capitals after a comma and whitespace count as a state
      abbreviation: when a stripped input ends in one, the suffix is
      dropped, and ",US" is appended unless what is left already holds the
      marker (app.py, lines 26-31). */
  lemma StateDropped(t: string, k: nat)
    requires k <= |t| && IsStateSuffix(t[k..])
    requires t[..k] == [] || !IsSpace(t[0])
    ensures HasUSMarker(t[..k]) ==> NormalizeLocation(t) == t[..k]
    ensures !HasUSMarker(t[..k]) ==> NormalizeLocation(t) == t[..k] + CountrySuffix
  {
    assert t[k] == ',' by { assert t[k..][0] == t[k]; }
    assert t[|t| - 1] == t[k..][|t[k..]| - 1];
    assert !IsZip(t) by { assert !IsAsciiDigit(t[k]); }
    TrimUnpadded(t);
    StripTrimmed(t);
    StripAtSuffix(t, k);
    assert NormalizeLocation(t) == NormalizeStripped(t);
  }

  /** The same without a comma before the suffix: the marker cannot be
      there, so the suffix is replaced by ",US". */
  lemma StateReplaced(city: string, w: string, a: char, b: char)
    requires city == [] || !IsSpace(city[0])
    requires ',' !in city
    requires AllSpace(w) && IsAsciiUpper(a) && IsAsciiUpper(b)
    ensures NormalizeLocation(city + "," + w + [a, b]) == city + CountrySuffix
  {
    NoCommaNoMarker(city);
    StateInput(city, w, a, b);
    StateDropped(city + "," + w + [a, b], |city|);
  }

  /** An input that, once stripped, is not a zip code, has no state suffix
      and already holds the marker is sent stripped and otherwise unchanged
      (app.py, lines 20 and 26-31). */
  lemma MarkerKept(m: string, pad: string)
    requires m == [] || (!IsSpace(m[0]) && !IsSpace(m[|m| - 1]))
    requires AllSpace(pad)
    requires !IsZip(m)
    requires StripAtEnd(m) == m
    requires HasUSMarker(m)
    ensures NormalizeLocation(m + pad) == m
  {
    var e: string := [];
    assert m + pad == e + m + pad;
    TrimPadded(e, m, pad);
    StripTrimmed(m + pad);
  }

  /** "97201" becomes "97201,US". */
  lemma ZipExample()
    ensures NormalizeLocation("97201") == "97201,US"
  {
    TrimUnpadded("97201");
    assert NormalizeLocation("97201") == NormalizeStripped("97201");
    assert IsZip("97201");
  }

  /** "Portland, OR" becomes "Portland,US". The literals are written as
      concatenations so that the verifier does not evaluate the normalizer
      on them symbolically. */
  lemma StateExample()
    ensures NormalizeLocation("Portland" + ", OR") == "Portland" + ",US"
  {
    assert "Portland" + ", OR" == "Portland" + "," + " " + ['O', 'R'];
    StateReplaced("Portland", " ", 'O', 'R');
  }

  /** Any two capitals count as a state: "Paris,FR" becomes "Paris,US". */
  lemma ForeignCountryExample()
    ensures NormalizeLocation("Paris" + ",FR") == "Paris" + ",US"
  {
    assert "Paris" + ",FR" == "Paris" + "," + "" + ['F', 'R'];
    StateReplaced("Paris", "", 'F', 'R');
  }

  /** Only the outer whitespace is stripped: "Portland , OR" keeps the space
      before its comma and becomes "Portland ,US". */
  lemma SpaceBeforeCommaExample()
    ensures NormalizeLocation("Portland " + ", OR") == "Portland " + ",US"
  {
    assert "Portland " + ", OR" == "Portland " + "," + " " + ['O', 'R'];
    StateReplaced("Portland ", " ", 'O', 'R');
  }

  /** The marker check ignores case: "Paris,usa" is sent unchanged. */
  lemma LowerCaseMarkerExample()
    ensures NormalizeLocation("Paris" + ",usa") == "Paris" + ",usa"
  {
    var t := "Paris" + ",usa";
    assert t[5] == ',' && t[6] == 'u' && t[7] == 's';
    MarkerAt(t, 5);
    assert t[0] == 'P' && t[|t| - 1] == 'a' && |t| == 9;
    assert StripAtEnd(t) == t;
    assert t + "" == t;
    MarkerKept(t, "");
  }

  /** "A,USX , CA" loses its state suffix and keeps the space before the
      comma: it becomes "A,USX ". */
  lemma FirstPassExample()
    ensures NormalizeLocation("A,USX " + ", CA") == "A,USX "
  {
    var p := "A,USX ";
    assert p + ", CA" == p + "," + " " + ['C', 'A'];
    assert p[1] == ',' && p[2] == 'U' && p[3] == 'S';
    MarkerAt(p, 1);
    StateInput(p, " ", 'C', 'A');
    StateDropped(p + "," + " " + ['C', 'A'], |p|);
  }

  /** A second pass over "A,USX " strips the trailing space. */
  lemma SecondPassExample()
    ensures NormalizeLocation("A,USX" + " ") == "A,USX"
  {
    var q := "A,USX";
    assert StripAtEnd(q) == q by {
      assert q[..3] == "A,U";
      assert TrimEnd(q[..3]) == q[..3];
    }
    assert !IsZip(q) by {
      assert q[0] == 'A';
    }
    assert q[1] == ',' && q[2] == 'U' && q[3] == 'S';
    MarkerAt(q, 1);
    MarkerKept(q, " ");
  }

  /** The normalizer is not idempotent: normalizing "A,USX , CA" a second
      time changes the result. */
  lemma NotIdempotent()
    ensures var once := NormalizeLocation("A,USX " + ", CA");
      NormalizeLocation(once) != once
  {
    FirstPassExample();
    SecondPassExample();
    assert "A,USX " == "A,USX" + " ";
  }
}
