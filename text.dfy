/** The few JavaScript string operations the core relies on: `trim`, `indexOf`,
    `replace` with a string pattern, `substring`, and `String(n)` of an integer. */
module Text {
  import opened Wrappers

  /** The characters `String.prototype.trim` removes: the WhiteSpace and LineTerminator
      code points of ECMA-262 (sections 12.2 and 12.3). */
  predicate IsWhitespace(c: char) {
    c == '\t' || c == '\n' || c == '\U{B}' || c == '\U{C}' || c == '\r' || c == ' '
    || c == '\U{A0}' || c == '\U{1680}' || ('\U{2000}' <= c <= '\U{200A}')
    || c == '\U{2028}' || c == '\U{2029}' || c == '\U{202F}' || c == '\U{205F}'
    || c == '\U{3000}' || c == '\U{FEFF}'
  }

  /** Every character of `s` is whitespace (vacuously true of ""). */
  predicate IsBlank(s: string) {
    forall i :: 0 <= i < |s| ==> IsWhitespace(s[i])
  }

  /** `trimStart`: the suffix of `s` left after dropping its leading whitespace. */
  function TrimStart(s: string): (r: string)
    ensures |r| <= |s| && r == s[|s| - |r|..]
    ensures IsBlank(s[..|s| - |r|])
    ensures r == [] || !IsWhitespace(r[0])
  {
    if |s| > 0 && IsWhitespace(s[0]) then
      var t := TrimStart(s[1..]);
      assert s[1..][..|s| - 1 - |t|] == s[1..|s| - |t|];
      t
    else s
  }

  /** `trimEnd`: the prefix of `s` left after dropping its trailing whitespace. */
  function TrimEnd(s: string): (r: string)
    ensures |r| <= |s| && r == s[..|r|]
    ensures IsBlank(s[|r|..])
    ensures r == [] || !IsWhitespace(r[|r| - 1])
  {
    if |s| > 0 && IsWhitespace(s[|s| - 1]) then
      var t := TrimEnd(s[..|s| - 1]);
      assert s[..|s| - 1][|t|..] + [s[|s| - 1]] == s[|t|..];
      t
    else s
  }

  /** `String.prototype.trim`. */
  function Trim(s: string): string {
    TrimEnd(TrimStart(s))
  }

  lemma {:induction false} TrimEndBlank(s: string)
    ensures TrimEnd(s) == [] <==> IsBlank(s)
  {
    if TrimEnd(s) == [] {
      assert s[|TrimEnd(s)|..] == s;
    } else {
      var r := TrimEnd(s);
      assert s[|r| - 1] == r[|r| - 1];
    }
  }

  /** A string trims to "" exactly when it is blank: the test `!text.trim()`. */
  lemma {:induction false} TrimEmptyIffBlank(s: string)
    ensures Trim(s) == [] <==> IsBlank(s)
  {
    var t := TrimStart(s);
    TrimEndBlank(t);
  }

  /** Trimming keeps a contiguous part of the input whose first and last characters
      are not whitespace, with only whitespace cut on either side. */
  lemma TrimShape(s: string)
    ensures var r := Trim(s);
      |r| <= |s| && (r == [] || (!IsWhitespace(r[0]) && !IsWhitespace(r[|r| - 1])))
  {
    var t := TrimStart(s);
    var r := TrimEnd(t);
    if r != [] {
      assert r[0] == t[0];
    }
  }

  /** `p` occurs in `s` starting at index `j`. */
  predicate OccursAt(s: string, p: string, j: int) {
    0 <= j && j + |p| <= |s| && s[j..j + |p|] == p
  }

  lemma ShiftOccurrence(s: string, p: string, j: nat)
    requires |s| > 0
    ensures OccursAt(s[1..], p, j) <==> OccursAt(s, p, j + 1)
  {
    if j + |p| <= |s[1..]| {
      assert s[1..][j..j + |p|] == s[j + 1..j + 1 + |p|];
    }
  }

  /** `s.indexOf(p)`: the first index at which `p` occurs, or None (JavaScript's -1). */
  function IndexOf(s: string, p: string): (r: Option<nat>)
    ensures r.Some? ==> OccursAt(s, p, r.value)
    ensures r.Some? ==> forall j :: 0 <= j < r.value ==> !OccursAt(s, p, j)
    ensures r.None? ==> forall j :: 0 <= j ==> !OccursAt(s, p, j)
    decreases |s|
  {
    if |p| <= |s| && s[..|p|] == p then Some(0)
    else if |s| == 0 then None
    else
      var rest := IndexOf(s[1..], p);
      assert !OccursAt(s, p, 0);
      assert forall j: nat :: OccursAt(s[1..], p, j) <==> OccursAt(s, p, j + 1) by {
        forall j: nat ensures OccursAt(s[1..], p, j) <==> OccursAt(s, p, j + 1) {
          ShiftOccurrence(s, p, j);
        }
      }
      match rest
      case Some(i) =>
        assert forall j :: 1 <= j < i + 1 ==> !OccursAt(s, p, j) by {
          forall j | 1 <= j < i + 1 ensures !OccursAt(s, p, j) {
            assert !OccursAt(s[1..], p, j - 1);
          }
        }
        Some(i + 1)
      case None =>
        assert forall j :: 1 <= j ==> !OccursAt(s, p, j) by {
          forall j | 1 <= j ensures !OccursAt(s, p, j) {
            assert !OccursAt(s[1..], p, j - 1);
          }
        }
        None
  }

  /** `s.replace(p, rep)` with a string pattern: only the first occurrence is replaced. */
  function ReplaceFirst(s: string, p: string, rep: string): (r: string)
  {
    match IndexOf(s, p)
    case None => s
    case Some(i) => s[..i] + rep + s[i + |p|..]
  }

  /** A pattern that does not occur leaves the text unchanged; otherwise exactly its first
      occurrence is cut out and `rep` put in its place. */
  lemma ReplaceFirstSpec(s: string, p: string, rep: string)
    ensures (forall j :: 0 <= j ==> !OccursAt(s, p, j)) ==> ReplaceFirst(s, p, rep) == s
    ensures forall i :: OccursAt(s, p, i) && (forall j :: 0 <= j < i ==> !OccursAt(s, p, j)) ==>
      ReplaceFirst(s, p, rep) == s[..i] + rep + s[i + |p|..]
  {
    match IndexOf(s, p)
    case None =>
    case Some(k) =>
      forall i | OccursAt(s, p, i) && (forall j :: 0 <= j < i ==> !OccursAt(s, p, j))
        ensures i == k
      {
      }
  }

  /** `s.substring(0, n)` for n >= 0. */
  function Prefix(s: string, n: nat): (r: string)
    ensures |r| == if n < |s| then n else |s|
    ensures r == s[..|r|]
  {
    if n < |s| then s[..n] else s
  }

  /** `s.substring(k)`: JavaScript clamps a negative start to 0 and a start past the end
      to the length. */
  function SuffixFrom(s: string, k: int): (r: string)
    ensures k <= 0 ==> r == s
    ensures 0 <= k <= |s| ==> |r| == |s| - k && r == s[k..]
    ensures |s| < k ==> r == []
  {
    if k <= 0 then s else if k <= |s| then s[k..] else []
  }

  function DigitChar(d: nat): (c: char)
    requires d < 10
    ensures '0' <= c <= '9'
  {
    ['0', '1', '2', '3', '4', '5', '6', '7', '8', '9'][d]
  }

  function DigitValue(c: char): nat
    requires '0' <= c <= '9'
  {
    (c as int - '0' as int) as nat
  }

  predicate IsDigits(s: string) {
    forall i :: 0 <= i < |s| ==> '0' <= s[i] <= '9'
  }

  /** Decimal notation of a natural number, without leading zeros. */
  function NatToString(n: nat): (r: string)
    ensures |r| > 0 && IsDigits(r)
    ensures |r| > 1 ==> r[0] != '0'
  {
    if n < 10 then [DigitChar(n)] else NatToString(n / 10) + [DigitChar(n % 10)]
  }

  /** Reads decimal digits back into a number. */
  function ParseDigits(s: string): nat
    requires IsDigits(s)
  {
    if s == [] then 0 else 10 * ParseDigits(s[..|s| - 1]) + DigitValue(s[|s| - 1])
  }

  /** `String(n)` of an integer-valued number. */
  function IntToString(n: int): string {
    if n < 0 then "-" + NatToString(-n) else NatToString(n)
  }

  lemma DigitRoundTrip(d: nat)
    requires d < 10
    ensures DigitValue(DigitChar(d)) == d
  {
  }

  /** Decimal notation reads back as the number it was made from. */
  lemma {:induction false} NatToStringRoundTrip(n: nat)
    ensures ParseDigits(NatToString(n)) == n
  {
    var s := NatToString(n);
    if n < 10 {
      DigitRoundTrip(n);
    } else {
      NatToStringRoundTrip(n / 10);
      DigitRoundTrip(n % 10);
      assert s[..|s| - 1] == NatToString(n / 10);
    }
  }

  /** Distinct numbers have distinct decimal notations. */
  lemma NatToStringInjective(m: nat, n: nat)
    requires NatToString(m) == NatToString(n)
    ensures m == n
  {
    NatToStringRoundTrip(m);
    NatToStringRoundTrip(n);
  }
}
