/**
 * The ticker gate of app1.py: the sidebar text is upper-cased and then
 * stripped, and an empty result stops the request before any fetch.
 */
module Ticker {

  /** Python's `str.isspace()` for one character. */
  predicate IsSpace(c: char)
  {
    var n := c as int;
    (9 <= n <= 13) || (28 <= n <= 32) || n == 0x85 || n == 0xA0 || n == 0x1680
    || (0x2000 <= n <= 0x200A) || n == 0x2028 || n == 0x2029 || n == 0x202F
    || n == 0x205F || n == 0x3000
  }

  predicate AllSpace(s: string)
  {
    forall k :: 0 <= k < |s| ==> IsSpace(s[k])
  }

  predicate IsLowerAscii(c: char)
  {
    'a' <= c <= 'z'
  }

  function UpperChar(c: char): char
  {
    if IsLowerAscii(c) then (c as int - 32) as char else c
  }

  /** Python's `str.upper()` on the ASCII letters. */
  function Upper(s: string): (r: string)
    ensures |r| == |s|
    ensures forall k :: 0 <= k < |s| ==> !IsLowerAscii(r[k])
    ensures forall k :: 0 <= k < |s| && IsLowerAscii(s[k]) ==> r[k] as int == s[k] as int - 32
    ensures forall k :: 0 <= k < |s| && !IsLowerAscii(s[k]) ==> r[k] == s[k]
    ensures forall k :: 0 <= k < |s| ==> (IsSpace(r[k]) <==> IsSpace(s[k]))
  {
    if s == [] then [] else [UpperChar(s[0])] + Upper(s[1..])
  }

  /** How many whitespace characters `s` starts with. */
  function LeadingSpaces(s: string): (n: nat)
    ensures n <= |s|
    ensures forall k :: 0 <= k < n ==> IsSpace(s[k])
    ensures n < |s| ==> !IsSpace(s[n])
  {
    if s == [] || !IsSpace(s[0]) then 0 else 1 + LeadingSpaces(s[1..])
  }

  /** How many whitespace characters `s` ends with. */
  function TrailingSpaces(s: string): (n: nat)
    ensures n <= |s|
    ensures forall k :: |s| - n <= k < |s| ==> IsSpace(s[k])
    ensures n < |s| ==> !IsSpace(s[|s| - 1 - n])
  {
    if s == [] || !IsSpace(s[|s| - 1]) then 0 else 1 + TrailingSpaces(s[..|s| - 1])
  }

  /**
   * Python's `str.strip()` with no argument: what lies between the leading
   * and the trailing whitespace runs (nothing, when the runs meet).
   */
  function Strip(s: string): (r: string)
    ensures |r| <= |s|
    ensures exists i, j :: 0 <= i <= j <= |s| && r == s[i..j] && AllSpace(s[..i]) && AllSpace(s[j..])
    ensures r == [] || (!IsSpace(r[0]) && !IsSpace(r[|r| - 1]))
    ensures r == [] <==> AllSpace(s)
  {
    var i := LeadingSpaces(s);
    if i == |s| then
      assert AllSpace(s[..i]) && AllSpace(s[i..]);
      s[i..i]
    else
      var j := |s| - TrailingSpaces(s);
      assert !IsSpace(s[i]);
      assert AllSpace(s[..i]) && AllSpace(s[j..]);
      s[i..j]
  }

  /** The leading whitespace run ends at the first non-whitespace character. */
  lemma {:induction false} LeadingSpacesStopsAt(s: string, n: nat)
    requires n <= |s| && forall k :: 0 <= k < n ==> IsSpace(s[k])
    requires n < |s| ==> !IsSpace(s[n])
    ensures LeadingSpaces(s) == n
  {
    if n > 0 {
      LeadingSpacesStopsAt(s[1..], n - 1);
    }
  }

  /** The trailing whitespace run starts after the last non-whitespace character. */
  lemma {:induction false} TrailingSpacesStopsAt(s: string, n: nat)
    requires n <= |s| && forall k :: |s| - n <= k < |s| ==> IsSpace(s[k])
    requires n < |s| ==> !IsSpace(s[|s| - 1 - n])
    ensures TrailingSpaces(s) == n
  {
    if n > 0 {
      TrailingSpacesStopsAt(s[..|s| - 1], n - 1);
    }
  }

  /**
   * `Strip` is the one slice `s[i..j]` with only whitespace outside it and
   * no whitespace at either of its ends.
   */
  lemma StripIsUniqueTrim(s: string, i: nat, j: nat)
    requires i <= j <= |s|
    requires AllSpace(s[..i]) && AllSpace(s[j..])
    requires i < j ==> !IsSpace(s[i]) && !IsSpace(s[j - 1])
    ensures Strip(s) == s[i..j]
  {
    forall k | 0 <= k < i ensures IsSpace(s[k]) {
      assert s[k] == s[..i][k];
    }
    forall k | j <= k < |s| ensures IsSpace(s[k]) {
      assert s[k] == s[j..][k - j];
    }
    if i < j {
      LeadingSpacesStopsAt(s, i);
      TrailingSpacesStopsAt(s, |s| - j);
    }
  }

  /** The ticker sent to the provider: the sidebar input upper-cased, then stripped. */
  function NormalizeTicker(raw: string): (t: string)
    ensures exists i, j ::
              0 <= i <= j <= |raw| && t == Upper(raw)[i..j]
              && AllSpace(Upper(raw)[..i]) && AllSpace(Upper(raw)[j..])
    ensures t == [] <==> AllSpace(raw)
    ensures forall k :: 0 <= k < |t| ==> !IsLowerAscii(t[k])
    ensures t == [] || (!IsSpace(t[0]) && !IsSpace(t[|t| - 1]))
  {
    var u := Upper(raw);
    assert AllSpace(u) <==> AllSpace(raw);
    Strip(u)
  }

  /** Upper-casing a string without lower-case ASCII letters changes nothing. */
  lemma UpperKeepsUpperCase(s: string)
    requires forall k :: 0 <= k < |s| ==> !IsLowerAscii(s[k])
    ensures Upper(s) == s
  {
  }

  /** Normalising a ticker that is already normalised changes nothing. */
  lemma NormalizeTickerIsIdempotent(raw: string)
    ensures NormalizeTicker(NormalizeTicker(raw)) == NormalizeTicker(raw)
  {
  }
}
