/**
 * The pieces of JavaScript's string semantics the front end relies on:
 * the character classes of its regular expressions, `trim`, decimal
 * rendering of numbers, `parseInt`, and `replace` with a string pattern.
 */
module Strings {
  import opened Common

  /** JavaScript WhiteSpace and LineTerminator code points: what `\s` matches,
      `trim` strips and `parseInt` skips. */
  predicate IsSpace(c: char) {
    c == ' ' || c == '\t' || c == '\n' || c == '\r' || c == '\U{000B}' || c == '\U{000C}'
    || c == '\U{00A0}' || c == '\U{1680}' || ('\U{2000}' <= c <= '\U{200A}')
    || c == '\U{2028}' || c == '\U{2029}' || c == '\U{202F}' || c == '\U{205F}'
    || c == '\U{3000}' || c == '\U{FEFF}'
  }

  /** `\d` */
  predicate IsDigit(c: char) { '0' <= c <= '9' }
  predicate IsUpper(c: char) { 'A' <= c <= 'Z' }
  predicate IsLower(c: char) { 'a' <= c <= 'z' }
  /** `[A-Za-z]` */
  predicate IsLetter(c: char) { IsUpper(c) || IsLower(c) }
  predicate IsHexDigit(c: char) { IsDigit(c) || ('a' <= c <= 'f') || ('A' <= c <= 'F') }

  predicate AllDigits(s: string) {
    forall i :: 0 <= i < |s| ==> IsDigit(s[i])
  }

  /** `/^\d+$/.test(s)` */
  predicate IsDigitString(s: string) {
    |s| > 0 && AllDigits(s)
  }

  // ---------------------------------------------------------------- trim

  /** `s.trimStart()`: the suffix left after dropping leading white space. */
  function TrimStart(s: string): (r: string)
    ensures |r| <= |s| && r == s[|s| - |r|..]
    ensures r == [] || !IsSpace(r[0])
    ensures forall i :: 0 <= i < |s| - |r| ==> IsSpace(s[i])
  {
    if |s| > 0 && IsSpace(s[0]) then TrimStart(s[1..]) else s
  }

  /** `s.trimEnd()`: the prefix left after dropping trailing white space. */
  function TrimEnd(s: string): (r: string)
    ensures |r| <= |s| && r == s[..|r|]
    ensures r == [] || !IsSpace(r[|r| - 1])
    ensures forall i :: |r| <= i < |s| ==> IsSpace(s[i])
  {
    if |s| > 0 && IsSpace(s[|s| - 1]) then TrimEnd(s[..|s| - 1]) else s
  }

  /** `s.trim()` */
  function Trim(s: string): string {
    TrimEnd(TrimStart(s))
  }

  /** `!s.trim()`: the trimmed string is empty. */
  predicate IsBlank(s: string) {
    Trim(s) == ""
  }

  /** A string is blank exactly when every one of its characters is white space. */
  lemma BlankIffAllSpace(s: string)
    ensures IsBlank(s) <==> forall i :: 0 <= i < |s| ==> IsSpace(s[i])
  {
  }

  /** A digit string is never blank. */
  lemma DigitStringNotBlank(s: string)
    requires IsDigitString(s)
    ensures !IsBlank(s)
  {
    BlankIffAllSpace(s);
    assert !IsSpace(s[0]);
  }

  // ---------------------------------------------------------------- decimal numbers

  function DigitValue(c: char): (d: nat)
    requires IsDigit(c)
    ensures d < 10
  {
    c as int - '0' as int
  }

  function DigitChar(d: nat): (c: char)
    requires d < 10
    ensures IsDigit(c) && DigitValue(c) == d
  {
    ('0' as int + d) as char
  }

  /** The number a string of decimal digits denotes (leading zeros allowed). */
  function DecimalValue(s: string): nat
    requires AllDigits(s)
  {
    if s == [] then 0 else 10 * DecimalValue(s[..|s| - 1]) + DigitValue(s[|s| - 1])
  }

  /** `String(n)` (and `${n}`) for a natural number: its decimal digits without leading zeros. */
  function NatToString(n: nat): (s: string)
    ensures IsDigitString(s)
  {
    if n < 10 then [DigitChar(n)] else NatToString(n / 10) + [DigitChar(n % 10)]
  }

  /** Reading back the decimal rendering of a number gives the number. */
  lemma {:induction false} DecimalOfNatToString(n: nat)
    ensures DecimalValue(NatToString(n)) == n
  {
    var s := NatToString(n);
    if n >= 10 {
      DecimalOfNatToString(n / 10);
      assert s[..|s| - 1] == NatToString(n / 10);
    }
  }

  /** The rendering has no leading zero unless the number is 0. */
  lemma {:induction false} NatToStringNoLeadingZero(n: nat)
    ensures NatToString(n)[0] == '0' <==> n == 0
  {
    if n >= 10 {
      NatToStringNoLeadingZero(n / 10);
    }
  }

  function Pow10(k: nat): (p: nat)
    ensures p >= 1
  {
    if k == 0 then 1 else 10 * Pow10(k - 1)
  }

  /** A number renders in at most k digits exactly when it is below 10^k. */
  lemma {:induction false} NatToStringLength(n: nat, k: nat)
    requires k >= 1
    ensures |NatToString(n)| <= k <==> n < Pow10(k)
  {
    if n >= 10 {
      if k == 1 {
      } else {
        NatToStringLength(n / 10, k - 1);
      }
    } else {
      if k > 1 {
        Pow10Grows(k);
      }
    }
  }

  lemma {:induction false} Pow10Grows(k: nat)
    requires k >= 1
    ensures Pow10(k) >= 10
  {
    if k > 1 {
      Pow10Grows(k - 1);
    }
  }

  // ---------------------------------------------------------------- parseInt

  /** The longest prefix of s made of characters satisfying `IsDigit`. */
  function DigitPrefix(s: string): (r: string)
    ensures |r| <= |s| && r == s[..|r|] && AllDigits(r)
    ensures |r| < |s| ==> !IsDigit(s[|r|])
  {
    if |s| > 0 && IsDigit(s[0]) then [s[0]] + DigitPrefix(s[1..]) else []
  }

  function HexDigitValue(c: char): (d: nat)
    requires IsHexDigit(c)
    ensures d < 16
  {
    if IsDigit(c) then DigitValue(c)
    else if 'a' <= c <= 'f' then c as int - 'a' as int + 10
    else c as int - 'A' as int + 10
  }

  /** The longest prefix of s made of hexadecimal digits. */
  function HexPrefix(s: string): (r: string)
    ensures |r| <= |s| && r == s[..|r|]
    ensures forall i :: 0 <= i < |r| ==> IsHexDigit(r[i])
    ensures |r| < |s| ==> !IsHexDigit(s[|r|])
  {
    if |s| > 0 && IsHexDigit(s[0]) then [s[0]] + HexPrefix(s[1..]) else []
  }

  function HexValue(s: string): nat
    requires forall i :: 0 <= i < |s| ==> IsHexDigit(s[i])
  {
    if s == [] then 0 else 16 * HexValue(s[..|s| - 1]) + HexDigitValue(s[|s| - 1])
  }

  /** JavaScript `parseInt(s)` with no radix; None stands for NaN. Leading white space is
      skipped, one sign is accepted, "0x"/"0X" selects base 16, and the longest run of
      digits is read; no digits at all gives NaN. */
  function ParseInt(s: string): Option<int> {
    var t := TrimStart(s);
    var sign := if |t| > 0 && t[0] == '-' then -1 else 1;
    var u := if |t| > 0 && (t[0] == '-' || t[0] == '+') then t[1..] else t;
    if |u| >= 2 && u[0] == '0' && (u[1] == 'x' || u[1] == 'X') then
      var h := HexPrefix(u[2..]);
      if h == [] then None else Some(sign * HexValue(h))
    else
      var d := DigitPrefix(u);
      if d == [] then None else Some(sign * DecimalValue(d))
  }

  /** `parseInt(s) || 0`: NaN (and 0) become 0. */
  function ParseIntOrZero(s: string): int {
    match ParseInt(s)
    case None => 0
    case Some(v) => v
  }

  /** On a string of decimal digits, parseInt reads the whole string in base 10. */
  lemma ParseIntOfDigits(s: string)
    requires IsDigitString(s)
    ensures ParseInt(s) == Some(DecimalValue(s))
    ensures ParseIntOrZero(s) == DecimalValue(s)
  {
    assert !IsSpace(s[0]);
    var t := TrimStart(s);
    assert t == s;
    assert t[0] != '-' && t[0] != '+';
    assert !(|t| >= 2 && t[0] == '0' && (t[1] == 'x' || t[1] == 'X')) by {
      if |t| >= 2 {
        assert IsDigit(t[1]);
      }
    }
    DigitPrefixOfDigits(s);
    assert DigitPrefix(t) == s;
  }

  lemma {:induction false} DigitPrefixOfDigits(s: string)
    requires AllDigits(s)
    ensures DigitPrefix(s) == s
  {
    if |s| > 0 {
      DigitPrefixOfDigits(s[1..]);
    }
  }

  // ---------------------------------------------------------------- replace

  /** `s.replace(pat, rep)` with a string pattern: only the FIRST occurrence of pat is replaced;
      with no occurrence s is returned unchanged. */
  function ReplaceFirst(s: string, pat: string, rep: string): string
  {
    if |pat| <= |s| && s[..|pat|] == pat then rep + s[|pat|..]
    else if s == [] then s
    else [s[0]] + ReplaceFirst(s[1..], pat, rep)
  }

  /** When nothing before `pat` could start it, the first occurrence is the one after x. */
  lemma {:induction false} ReplaceFirstAfter(x: string, pat: string, y: string, rep: string)
    requires |pat| > 0
    requires forall i :: 0 <= i < |x| ==> x[i] != pat[0]
    ensures ReplaceFirst(x + pat + y, pat, rep) == x + rep + y
  {
    var s := x + pat + y;
    if x == [] {
      assert s[..|pat|] == pat;
      assert s[|pat|..] == y;
    } else {
      assert s[0] == x[0];
      assert s[1..] == x[1..] + pat + y;
      ReplaceFirstAfter(x[1..], pat, y, rep);
    }
  }

  /** With no character that could start `pat`, replace leaves the string unchanged. */
  lemma {:induction false} ReplaceFirstAbsent(s: string, pat: string, rep: string)
    requires |pat| > 0
    requires forall i :: 0 <= i < |s| ==> s[i] != pat[0]
    ensures ReplaceFirst(s, pat, rep) == s
  {
    if s != [] {
      assert s[0] != pat[0];
      ReplaceFirstAbsent(s[1..], pat, rep);
    }
  }

  /** `s.replace(/c/g, "")` for a single character c: every occurrence is removed. */
  function RemoveAll(s: string, c: char): (r: string)
    ensures forall i :: 0 <= i < |r| ==> r[i] != c
    ensures |r| <= |s|
  {
    if s == [] then [] else (if s[0] == c then [] else [s[0]]) + RemoveAll(s[1..], c)
  }

  lemma {:induction false} RemoveAllAppend(a: string, b: string, c: char)
    ensures RemoveAll(a + b, c) == RemoveAll(a, c) + RemoveAll(b, c)
  {
    if a != [] {
      var x := if a[0] == c then [] else [a[0]];
      assert (a + b)[0] == a[0];
      assert (a + b)[1..] == a[1..] + b;
      assert RemoveAll(a + b, c) == x + RemoveAll(a[1..] + b, c);
      RemoveAllAppend(a[1..], b, c);
      assert RemoveAll(a, c) == x + RemoveAll(a[1..], c);
      assert x + (RemoveAll(a[1..], c) + RemoveAll(b, c)) == (x + RemoveAll(a[1..], c)) + RemoveAll(b, c);
    } else {
      assert a + b == b;
    }
  }

  lemma {:induction false} RemoveAllAbsent(s: string, c: char)
    requires forall i :: 0 <= i < |s| ==> s[i] != c
    ensures RemoveAll(s, c) == s
  {
    if s != [] {
      RemoveAllAbsent(s[1..], c);
    }
  }

  /** How many times c occurs in s. */
  function Count(s: string, c: char): nat {
    if s == [] then 0 else (if s[0] == c then 1 else 0) + Count(s[1..], c)
  }

  lemma {:induction false} CountAppend(a: string, b: string, c: char)
    ensures Count(a + b, c) == Count(a, c) + Count(b, c)
  {
    if a != [] {
      assert (a + b)[1..] == a[1..] + b;
      CountAppend(a[1..], b, c);
    } else {
      assert a + b == b;
    }
  }

  lemma {:induction false} CountZeroIffAbsent(s: string, c: char)
    ensures Count(s, c) == 0 <==> forall i :: 0 <= i < |s| ==> s[i] != c
  {
    if s != [] {
      CountZeroIffAbsent(s[1..], c);
      assert forall i :: 1 <= i < |s| ==> s[i] == s[1..][i - 1];
    }
  }

  /** Replacing the first occurrence of a one-character pattern by nothing removes exactly one
      occurrence (when there is one). */
  lemma {:induction false} ReplaceFirstRemovesOne(s: string, c: char)
    requires Count(s, c) > 0
    ensures Count(ReplaceFirst(s, [c], ""), c) == Count(s, c) - 1
  {
    if s[0] == c {
      assert s[..1] == [c];
      assert ReplaceFirst(s, [c], "") == s[1..];
    } else {
      ReplaceFirstRemovesOne(s[1..], c);
    }
  }

  // ---------------------------------------------------------------- digit grouping

  /** en-US digit grouping of a string of digits (`toLocaleString()` of a whole number):
      a comma before every full group of three digits, counted from the right. */
  function GroupThousands(d: string): (r: string)
    ensures |d| <= 3 ==> r == d
  {
    if |d| <= 3 then d else GroupThousands(d[..|d| - 3]) + "," + d[|d| - 3..]
  }

  /** Up to six digits there is at most one grouping comma, so removing the first one undoes
      the grouping. */
  lemma UngroupUpToSixDigits(d: string)
    requires AllDigits(d) && |d| <= 6
    ensures ReplaceFirst(GroupThousands(d), ",", "") == d
  {
    if |d| <= 3 {
      ReplaceFirstAbsent(d, ",", "");
    } else {
      UngroupOneComma(d[..|d| - 3], d[|d| - 3..]);
      assert d[..|d| - 3] + d[|d| - 3..] == d;
    }
  }

  /** Grouped digits with a single comma lose it to one `replace`. */
  lemma UngroupOneComma(head: string, tail: string)
    requires AllDigits(head) && 0 < |head| <= 3 && |tail| == 3
    ensures ReplaceFirst(GroupThousands(head + tail), ",", "") == head + tail
  {
    GroupThousandsStep(head, tail);
    ReplaceFirstAfter(head, ",", tail, "");
    assert head + "" + tail == head + tail;
  }

  /** A string holding a comma is neither blank nor a string of digits. */
  lemma CommaIsNotNumber(s: string)
    requires ',' in s
    ensures !IsBlank(s) && !IsDigitString(s)
  {
    var i :| 0 <= i < |s| && s[i] == ',';
    assert !IsDigit(s[i]) && !IsSpace(s[i]);
    BlankIffAllSpace(s);
  }

  /** Grouping digits whose last three are `b` groups what precedes them, then appends `b`. */
  lemma GroupThousandsStep(a: string, b: string)
    requires |a| > 0 && |b| == 3
    ensures GroupThousands(a + b) == GroupThousands(a) + "," + b
  {
    assert (a + b)[..|a|] == a;
    assert (a + b)[|a|..] == b;
  }

  /** Both parts of a string of digits are strings of digits. */
  lemma DigitsSplit(d: string, k: nat)
    requires AllDigits(d) && k <= |d|
    ensures AllDigits(d[..k]) && AllDigits(d[k..])
  {
    assert forall i :: 0 <= i < k ==> d[..k][i] == d[i];
    assert forall i :: 0 <= i < |d| - k ==> d[k..][i] == d[k + i];
  }

  /** Removing every comma undoes the grouping. */
  lemma {:induction false} UngroupThousands(d: string)
    requires AllDigits(d)
    ensures RemoveAll(GroupThousands(d), ',') == d
  {
    if |d| <= 3 {
      RemoveAllAbsent(d, ',');
    } else {
      var head, tail := d[..|d| - 3], d[|d| - 3..];
      DigitsSplit(d, |d| - 3);
      assert forall k :: 0 <= k < |tail| ==> tail[k] != ',' by {
        forall k | 0 <= k < |tail|
          ensures tail[k] != ','
        {
          assert IsDigit(tail[k]);
        }
      }
      var g := GroupThousands(head);
      assert GroupThousands(d) == g + "," + tail;
      UngroupThousands(head);
      RemoveAllAppend(g + ",", tail, ',');
      RemoveAllAppend(g, ",", ',');
      RemoveAllAbsent(tail, ',');
      assert RemoveAll(",", ',') == [];
      assert RemoveAll(g + ",", ',') == head;
      assert d == head + tail;
    }
  }

  /** A grouped number of n digits holds (n - 1) / 3 commas. */
  lemma {:induction false} GroupedCommaCount(d: string)
    requires AllDigits(d) && |d| > 0
    ensures Count(GroupThousands(d), ',') == (|d| - 1) / 3
  {
    if |d| <= 3 {
      CountZeroIffAbsent(d, ',');
    } else {
      var head, tail := d[..|d| - 3], d[|d| - 3..];
      GroupedCommaCount(head);
      CountAppend(GroupThousands(head) + ",", tail, ',');
      CountAppend(GroupThousands(head), ",", ',');
      CountZeroIffAbsent(tail, ',');
    }
  }
}
