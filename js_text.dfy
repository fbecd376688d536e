/**
 * The handful of JavaScript string built-ins the application relies on:
 * `toUpperCase`, `trim`, `slice`, `includes`, `split`, `Number.prototype.toString`
 * and `padStart`.
 */
module JsText {
  import opened Wrappers

  // ---------------------------------------------------------------------------
  // toUpperCase (ASCII letters only)
  // ---------------------------------------------------------------------------

  predicate IsLowerAscii(c: char) { 'a' <= c <= 'z' }

  function UpperChar(c: char): char
  {
    if IsLowerAscii(c) then (c as int - 32) as char else c
  }

  /** `s.toUpperCase()`: maps `a`..`z` to `A`..`Z` and keeps every other character. */
  function Upper(s: string): (r: string)
    ensures |r| == |s|
    ensures forall i :: 0 <= i < |s| ==> !IsLowerAscii(r[i])
    ensures forall i :: 0 <= i < |s| && !IsLowerAscii(s[i]) ==> r[i] == s[i]
    ensures forall i :: 0 <= i < |s| && IsLowerAscii(s[i]) ==> r[i] as int == s[i] as int - 32
  {
    seq(|s|, i requires 0 <= i < |s| => UpperChar(s[i]))
  }

  lemma UpperIdempotent(s: string)
    ensures Upper(Upper(s)) == Upper(s)
  {
  }

  /** Upper-casing commutes with taking a prefix (`slice(0, n)`). */
  lemma UpperPrefix(s: string, n: nat)
    requires n <= |s|
    ensures Upper(s[..n]) == Upper(s)[..n]
  {
  }

  // ---------------------------------------------------------------------------
  // trim
  // ---------------------------------------------------------------------------

  /** The ECMAScript WhiteSpace and LineTerminator code points that `trim` removes. */
  predicate IsJsSpace(c: char)
  {
    c == ' ' || c == '\t' || c == '\n' || c == '\r' || c == '\U{000B}' || c == '\U{000C}'
    || c == '\U{00A0}' || c == '\U{1680}' || ('\U{2000}' <= c <= '\U{200A}')
    || c == '\U{2028}' || c == '\U{2029}' || c == '\U{202F}' || c == '\U{205F}'
    || c == '\U{3000}' || c == '\U{FEFF}'
  }

  predicate AllSpace(s: string) { forall i :: 0 <= i < |s| ==> IsJsSpace(s[i]) }

  lemma AllSpaceCons(c: char, t: string)
    requires IsJsSpace(c) && AllSpace(t)
    ensures AllSpace([c] + t)
  {
    assert forall k :: 0 < k <= |t| ==> ([c] + t)[k] == t[k - 1];
  }

  lemma AllSpaceSnoc(t: string, c: char)
    requires IsJsSpace(c) && AllSpace(t)
    ensures AllSpace(t + [c])
  {
  }

  /** Drops the leading white space; what remains is a suffix of `s`. */
  function TrimStart(s: string): (r: string)
    ensures |r| <= |s| && r == s[|s| - |r|..]
    ensures AllSpace(s[..|s| - |r|])
    ensures r != [] ==> !IsJsSpace(r[0])
  {
    if s != [] && IsJsSpace(s[0]) then
      var r := TrimStart(s[1..]);
      assert s[1..][..|s| - 1 - |r|] == s[1..|s| - |r|];
      AllSpaceCons(s[0], s[1..|s| - |r|]);
      assert s[..|s| - |r|] == [s[0]] + s[1..|s| - |r|];
      r
    else s
  }

  /** Drops the trailing white space; what remains is a prefix of `s`. */
  function TrimEnd(s: string): (r: string)
    ensures |r| <= |s| && r == s[..|r|]
    ensures AllSpace(s[|r|..])
    ensures r != [] ==> !IsJsSpace(r[|r| - 1])
  {
    if s != [] && IsJsSpace(s[|s| - 1]) then
      var r := TrimEnd(s[..|s| - 1]);
      assert s[..|s| - 1][|r|..] == s[|r|..|s| - 1];
      AllSpaceSnoc(s[|r|..|s| - 1], s[|s| - 1]);
      assert s[|r|..] == s[|r|..|s| - 1] + [s[|s| - 1]];
      r
    else s
  }

  /** `s.trim()`. */
  function Trim(s: string): string
  {
    TrimEnd(TrimStart(s))
  }

  /**
   * The trimmed text is the slice `s[i..j]` left after removing white space only,
   * and it neither starts nor ends with white space.
   */
  lemma TrimIsInnerSlice(s: string)
    ensures exists i, j :: 0 <= i <= j <= |s| && Trim(s) == s[i..j]
              && AllSpace(s[..i]) && AllSpace(s[j..])
    ensures Trim(s) != [] ==> !IsJsSpace(Trim(s)[0]) && !IsJsSpace(Trim(s)[|Trim(s)| - 1])
  {
    var i, j := TrimBounds(s);
    EndsOfTrim(s);
  }

  /** The bounds of the slice that `Trim` keeps. */
  lemma TrimBounds(s: string) returns (i: nat, j: nat)
    ensures i <= j <= |s| && Trim(s) == s[i..j] && AllSpace(s[..i]) && AllSpace(s[j..])
  {
    var t := TrimStart(s);
    var r := TrimEnd(t);
    i := |s| - |t|;
    j := i + |r|;
    assert t == s[i..];
    assert r == s[i..j];
    assert s[j..] == t[|r|..];
  }

  lemma EndsOfTrim(s: string)
    ensures Trim(s) != [] ==> !IsJsSpace(Trim(s)[0]) && !IsJsSpace(Trim(s)[|Trim(s)| - 1])
  {
    var t := TrimStart(s);
    var r := TrimEnd(t);
    if r != [] {
      assert r[0] == t[0];
    }
  }

  /** `s.trim() === ""` exactly when `s` is made of white space only. */
  lemma TrimEmptyIff(s: string)
    ensures Trim(s) == [] <==> AllSpace(s)
  {
    var t := TrimStart(s);
    if t != [] {
      assert !IsJsSpace(s[|s| - |t|]);
    } else {
      assert s[..|s|] == s;
    }
  }

  lemma TrimIdempotent(s: string)
    ensures Trim(Trim(s)) == Trim(s)
  {
    var r := Trim(s);
    if r != [] {
      assert !IsJsSpace(r[0]);
      assert TrimStart(r) == r;
      assert !IsJsSpace(r[|r| - 1]);
    }
  }

  // ---------------------------------------------------------------------------
  // includes / indexOf / split
  // ---------------------------------------------------------------------------

  predicate OccursAt(s: string, pat: string, k: nat)
  {
    k + |pat| <= |s| && s[k..k + |pat|] == pat
  }

  /** `s.indexOf(pat, k)`: the first occurrence at or after `k`. */
  function FindFrom(s: string, pat: string, k: nat): (r: Option<nat>)
    requires k <= |s|
    decreases |s| - k
    ensures r.Some? ==> k <= r.value && OccursAt(s, pat, r.value)
    ensures r.Some? ==> forall j :: k <= j < r.value ==> !OccursAt(s, pat, j)
    ensures r.None? ==> forall j :: k <= j ==> !OccursAt(s, pat, j)
  {
    if OccursAt(s, pat, k) then Some(k)
    else if k == |s| then None
    else FindFrom(s, pat, k + 1)
  }

  function IndexOf(s: string, pat: string): Option<nat>
  {
    FindFrom(s, pat, 0)
  }

  /** The first occurrence is the one `indexOf` reports. */
  lemma IndexOfFirst(s: string, pat: string, k: nat)
    requires OccursAt(s, pat, k)
    requires forall j :: 0 <= j < k ==> !OccursAt(s, pat, j)
    ensures IndexOf(s, pat) == Some(k)
  {
  }

  /** `s.includes(pat)`. */
  predicate Includes(s: string, pat: string)
  {
    IndexOf(s, pat).Some?
  }

  lemma IncludesIff(s: string, pat: string)
    ensures Includes(s, pat) <==> exists k :: OccursAt(s, pat, k)
  {
  }

  /** For a one-character pattern, `includes` is membership. */
  lemma IncludesChar(s: string, c: char)
    ensures Includes(s, [c]) <==> c in s
  {
    if c in s {
      var k :| 0 <= k < |s| && s[k] == c;
      assert OccursAt(s, [c], k) by { assert s[k..k + 1] == [c]; }
    }
    if Includes(s, [c]) {
      var k := IndexOf(s, [c]).value;
      assert s[k..k + 1][0] == s[k];
    }
  }

  /** `s.split(sep)[0]`: the text before the first `sep`, or all of `s`. */
  function SplitHead(s: string, sep: string): (r: string)
    requires sep != []
    ensures !Includes(r, sep)
    ensures Includes(s, sep) ==> OccursAt(s, sep, |r|) && r == s[..|r|]
    ensures !Includes(s, sep) ==> r == s
    ensures forall j :: 0 <= j < |r| ==> !OccursAt(s, sep, j)
  {
    match IndexOf(s, sep)
    case None => s
    case Some(k) =>
      var r := s[..k];
      assert forall j :: OccursAt(r, sep, j) ==> OccursAt(s, sep, j) by {
        forall j: nat | OccursAt(r, sep, j) ensures OccursAt(s, sep, j) {
          assert s[j..j + |sep|] == r[j..j + |sep|];
        }
      }
      r
  }

  /** `s.split(sep)[1]`, present when `sep` occurs: the text between the first
      and the second `sep` (or the end of `s`). */
  function SplitSecond(s: string, sep: string): (r: string)
    requires sep != [] && Includes(s, sep)
    ensures !Includes(r, sep)
    ensures var off := IndexOf(s, sep).value + |sep|;
            && off + |r| <= |s| && r == s[off..off + |r|]
            && (off + |r| == |s| || OccursAt(s, sep, off + |r|))
            && forall j :: off <= j < off + |r| ==> !OccursAt(s, sep, j)
  {
    var off := IndexOf(s, sep).value + |sep|;
    HeadOfSuffix(s, sep, off);
    SplitHead(s[off..], sep)
  }

  /** `split(sep)[0]` of the suffix from `off`, read as a slice of `s`. */
  lemma HeadOfSuffix(s: string, sep: string, off: nat)
    requires sep != [] && off <= |s|
    ensures var r := SplitHead(s[off..], sep);
            && off + |r| <= |s| && r == s[off..off + |r|]
            && (off + |r| == |s| || OccursAt(s, sep, off + |r|))
            && forall j :: off <= j < off + |r| ==> !OccursAt(s, sep, j)
  {
    var rest := s[off..];
    var r := SplitHead(rest, sep);
    assert r == rest[..|r|];
    var e := off + |r|;
    assert Includes(rest, sep) ==> rest[|r|..|r| + |sep|] == s[e..e + |sep|];
    forall j | off <= j < e ensures !OccursAt(s, sep, j) {
      if OccursAt(s, sep, j) {
        OccursInSuffix(s, off, j - off, sep);
      }
    }
  }

  /** An occurrence past `off` is an occurrence in the suffix from `off`. */
  lemma OccursInSuffix(s: string, off: nat, i: nat, pat: string)
    requires off <= |s| && OccursAt(s, pat, off + i)
    ensures OccursAt(s[off..], pat, i)
  {
    assert s[off..][i..i + |pat|] == s[off + i..off + i + |pat|];
  }

  /** The position of the last occurrence of `c`. */
  function LastIndexOf(s: string, c: char): (r: Option<nat>)
    ensures r.Some? ==> r.value < |s| && s[r.value] == c && c !in s[r.value + 1..]
    ensures r.None? <==> c !in s
  {
    if s == [] then None
    else if s[|s| - 1] == c then Some(|s| - 1)
    else
      var r := LastIndexOf(s[..|s| - 1], c);
      assert s == s[..|s| - 1] + [s[|s| - 1]];
      r
  }

  /** `s.split(c).pop()` for a one-character separator: the text after the last `c`. */
  function SplitLast(s: string, c: char): (r: string)
    ensures c !in r
    ensures c in s ==> |r| < |s| && s[|s| - |r| - 1] == c && r == s[|s| - |r|..]
    ensures c !in s ==> r == s
  {
    match LastIndexOf(s, c)
    case None => s
    case Some(k) => s[k + 1..]
  }

  // ---------------------------------------------------------------------------
  // Number.prototype.toString() for non-negative integers, and padStart
  // ---------------------------------------------------------------------------

  predicate IsDigit(c: char) { '0' <= c <= '9' }

  function DigitChar(d: nat): (c: char)
    requires d < 10
    ensures IsDigit(c)
  {
    ('0' as int + d) as char
  }

  function DigitValue(c: char): nat
    requires IsDigit(c)
  {
    c as int - '0' as int
  }

  predicate AllDigits(s: string) { forall i :: 0 <= i < |s| ==> IsDigit(s[i]) }

  /** `n.toString()`: base-10 digits, most significant first, no leading zero. */
  function Decimal(n: nat): (r: string)
    ensures |r| >= 1 && AllDigits(r)
    ensures n < 10 <==> |r| == 1
    ensures 10 <= n < 100 ==> |r| == 2
  {
    if n < 10 then [DigitChar(n)] else Decimal(n / 10) + [DigitChar(n % 10)]
  }

  /** The number a string of digits denotes (the reading direction of `Decimal`). */
  function DigitsValue(s: string): nat
    requires AllDigits(s)
  {
    if s == [] then 0 else DigitsValue(s[..|s| - 1]) * 10 + DigitValue(s[|s| - 1])
  }

  lemma {:induction false} DecimalRoundTrip(n: nat)
    ensures DigitsValue(Decimal(n)) == n
  {
    if n >= 10 {
      var r := Decimal(n);
      assert r[..|r| - 1] == Decimal(n / 10);
      DecimalRoundTrip(n / 10);
    }
  }

  /** `s.padStart(2, "0")`. */
  function PadStart2(s: string): (r: string)
    ensures |s| >= 2 ==> r == s
    ensures |s| < 2 ==> |r| == 2 && r[2 - |s|..] == s && forall i :: 0 <= i < 2 - |s| ==> r[i] == '0'
  {
    if |s| >= 2 then s else seq(2 - |s|, _ => '0') + s
  }

  /** Leading zeros do not change the value of a digit string. */
  lemma {:induction false} LeadingZeroValue(s: string)
    requires AllDigits(s)
    ensures AllDigits("0" + s) && DigitsValue("0" + s) == DigitsValue(s)
  {
    if s != [] {
      assert ("0" + s)[..|"0" + s| - 1] == "0" + s[..|s| - 1];
      LeadingZeroValue(s[..|s| - 1]);
    }
  }

  lemma PadStart2Value(s: string)
    requires AllDigits(s)
    ensures AllDigits(PadStart2(s)) && DigitsValue(PadStart2(s)) == DigitsValue(s)
  {
    if |s| == 1 {
      assert PadStart2(s) == "0" + s;
      LeadingZeroValue(s);
    } else if |s| == 0 {
      assert PadStart2(s) == "00";
      assert DigitsValue("00"[..1]) == 0;
    }
  }
}
