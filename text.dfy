/**
 * String helpers with JavaScript's meaning: `String.prototype.trim`,
 * `Array.prototype.join`, decimal rendering of a number inside a template
 * literal, and `String.prototype.startsWith`.
 */
module Text {

  /**
   * The code points ECMAScript counts as WhiteSpace or LineTerminator, which
   * are exactly the ones `trim()` strips: tab, line feed, vertical tab, form
   * feed, carriage return, space, no-break space, ogham space mark, the
   * spaces U+2000..U+200A, line and paragraph separators, narrow no-break
   * space, medium mathematical space, ideographic space and the byte order mark.
   */
  predicate IsWhitespace(c: char) {
    c == '\t' || c == '\n' || c == '\U{000B}' || c == '\U{000C}' || c == '\r'
    || c == ' ' || c == '\U{00A0}' || c == '\U{1680}'
    || ('\U{2000}' <= c <= '\U{200A}')
    || c == '\U{2028}' || c == '\U{2029}' || c == '\U{202F}' || c == '\U{205F}'
    || c == '\U{3000}' || c == '\U{FEFF}'
  }

  /** Every character is whitespace (this includes the empty string). */
  predicate IsBlank(s: string) {
    forall i :: 0 <= i < |s| ==> IsWhitespace(s[i])
  }

  /** `s.trimStart()`: the suffix of `s` left after its leading whitespace. */
  function TrimStart(s: string): (r: string)
    ensures |r| <= |s| && r == s[|s| - |r|..]
    ensures IsBlank(s[..|s| - |r|])
    ensures r != [] ==> !IsWhitespace(r[0])
  {
    if |s| > 0 && IsWhitespace(s[0]) then TrimStart(s[1..]) else s
  }

  /** `s.trimEnd()`: the prefix of `s` left after its trailing whitespace. */
  function TrimEnd(s: string): (r: string)
    ensures |r| <= |s| && r == s[..|r|]
    ensures IsBlank(s[|r|..])
    ensures r != [] ==> !IsWhitespace(r[|r| - 1])
  {
    if |s| > 0 && IsWhitespace(s[|s| - 1]) then TrimEnd(s[..|s| - 1]) else s
  }

  /** `r` is `s` with the blank prefix `s[..k]` and a blank suffix cut off. */
  predicate CutsBlankEnds(s: string, r: string, k: int) {
    0 <= k && k + |r| <= |s| && r == s[k..k + |r|] && IsBlank(s[..k]) && IsBlank(s[k + |r|..])
  }

  /** `s.trim()`: `s` without its leading and trailing whitespace. */
  function Trim(s: string): (r: string)
    ensures |r| <= |s|
    ensures r == [] <==> IsBlank(s)
    ensures r != [] ==> !IsWhitespace(r[0]) && !IsWhitespace(r[|r| - 1])
  {
    var a := TrimStart(s);
    var r := TrimEnd(a);
    TrimBlankIff(s, |s| - |a|, a, r);
    r
  }

  /**
   * `trim` removes only white space, at both ends: its result is `s` with
   * the blank prefix of the returned length `k` and a blank suffix cut off.
   */
  lemma TrimCutsBlankEnds(s: string) returns (k: nat)
    ensures CutsBlankEnds(s, Trim(s), k)
  {
    var a := TrimStart(s);
    var r := TrimEnd(a);
    k := |s| - |a|;
    assert r == Trim(s);
    assert a == s[k..];
    assert r == a[..|r|];
    assert a[..|r|] == s[k..k + |r|];
    assert s[k + |r|..] == a[|r|..];
  }

  /** Nothing is left of `s` exactly when `s` is all white space. */
  lemma TrimBlankIff(s: string, k: int, a: string, r: string)
    requires a == TrimStart(s) && r == TrimEnd(a) && k == |s| - |a|
    ensures r == [] <==> IsBlank(s)
  {
    if r == [] {
      assert a == s[k..];
      forall i | 0 <= i < |s|
        ensures IsWhitespace(s[i])
      {
        if i >= k {
          assert s[i] == a[i - k] && a[i - k] == a[|r|..][i - k];
        } else {
          assert s[i] == s[..k][i];
        }
      }
    } else {
      assert s[k] == a[0] == r[0];
    }
  }

  /** Trimming a trimmed string changes nothing, so trimming twice is trimming once. */
  lemma TrimIdempotent(s: string)
    ensures Trim(Trim(s)) == Trim(s)
  {
    var t := Trim(s);
    if t != [] {
      assert TrimStart(t) == t;
      assert TrimEnd(t) == t;
    }
  }

  /** `parts.join(sep)`. */
  function Join(parts: seq<string>, sep: string): string {
    if |parts| == 0 then ""
    else if |parts| == 1 then parts[0]
    else parts[0] + sep + Join(parts[1..], sep)
  }

  /** Joining one more part appends the separator and that part. */
  lemma {:induction false} JoinSnoc(parts: seq<string>, sep: string, last: string)
    requires |parts| > 0
    ensures Join(parts + [last], sep) == Join(parts, sep) + sep + last
  {
    if |parts| == 1 {
      assert (parts + [last])[1..] == [last];
    } else {
      assert (parts + [last])[1..] == parts[1..] + [last];
      JoinSnoc(parts[1..], sep, last);
    }
  }

  /** Every part occurs in the joined string, at the offset the returned `k` gives. */
  lemma {:induction false} JoinContains(parts: seq<string>, sep: string, i: nat) returns (k: nat)
    requires i < |parts|
    ensures k + |parts[i]| <= |Join(parts, sep)|
    ensures Join(parts, sep)[k..k + |parts[i]|] == parts[i]
  {
    if i == 0 {
      k := 0;
      if |parts| > 1 {
        assert Join(parts, sep)[..|parts[0]|] == parts[0];
      }
    } else {
      var j := JoinContains(parts[1..], sep, i - 1);
      var rest := Join(parts[1..], sep);
      k := |parts[0]| + |sep| + j;
      assert Join(parts, sep) == parts[0] + sep + rest;
      assert Join(parts, sep)[k..k + |parts[i]|] == rest[j..j + |parts[i]|];
    }
  }

  predicate IsDigit(c: char) { '0' <= c <= '9' }

  /** The value of a string of decimal digits. */
  function DecimalValue(s: string): nat
    requires forall i :: 0 <= i < |s| ==> IsDigit(s[i])
  {
    if s == [] then 0
    else
      assert IsDigit(s[|s| - 1]);
      10 * DecimalValue(s[..|s| - 1]) + (s[|s| - 1] as int - '0' as int)
  }

  /** How a template literal renders a natural number: decimal digits, no leading zero. */
  function NatToDecimal(n: nat): (r: string)
    ensures r != [] && (forall i :: 0 <= i < |r| ==> IsDigit(r[i]))
    ensures |r| > 1 ==> r[0] != '0'
    ensures DecimalValue(r) == n
  {
    var d := ['0' + (n % 10) as char];
    if n < 10 then d
    else
      var r := NatToDecimal(n / 10) + d;
      assert r[..|r| - 1] == NatToDecimal(n / 10);
      r
  }

  /** `s.startsWith(p)`. */
  predicate StartsWith(s: string, p: string) {
    |p| <= |s| && s[..|p|] == p
  }
}
