/** The score store: the two counters kept in the browser's local storage, written
    as decimal text and read back with `parseInt(...) || 0`. */
module Scores {
  import opened Wrappers
  import opened Text

  const WinsKey := "hangmanWins"
  const LossesKey := "hangmanLosses"

  function DigitChar(d: nat): (c: char)
    requires d < 10
    ensures IsDigit(c)
  {
    ('0' as int + d) as char
  }

  function DigitValue(c: char): (d: nat)
    requires IsDigit(c)
    ensures d < 10 && DigitChar(d) == c
  {
    c as int - '0' as int
  }

  predicate AllDigits(s: string) { forall i :: 0 <= i < |s| ==> IsDigit(s[i]) }

  /** The decimal text of a natural number, without leading zeros. */
  function NatToString(n: nat): (s: string)
    ensures s != [] && AllDigits(s)
    ensures |s| > 1 ==> s[0] != '0'
  {
    if n < 10 then [DigitChar(n)] else NatToString(n / 10) + [DigitChar(n % 10)]
  }

  /** How `setItem` stores a counter: the number's decimal text, with `-` when negative. */
  function IntToString(n: int): (s: string)
    ensures s != []
    ensures n < 0 <==> s[0] == '-'
    ensures n >= 0 ==> AllDigits(s)
  {
    if n < 0 then "-" + NatToString(-n) else NatToString(n)
  }

  /** The value of a string of decimal digits. */
  function DigitsValue(s: string): nat
    requires AllDigits(s)
  {
    if s == [] then 0 else DigitsValue(s[..|s| - 1]) * 10 + DigitValue(s[|s| - 1])
  }

  /** The longest run of digits at the start of `s`. */
  function DigitPrefix(s: string): (p: string)
    ensures |p| <= |s| && p == s[..|p|] && AllDigits(p)
    ensures |p| < |s| ==> !IsDigit(s[|p|])
  {
    if s != [] && IsDigit(s[0]) then [s[0]] + DigitPrefix(s[1..]) else []
  }

  /** The value of the digit run at the start of `t`; `None` when there is none. */
  function ParseDigits(t: string): (r: Option<nat>)
    ensures r.None? <==> t == [] || !IsDigit(t[0])
  {
    var digits := DigitPrefix(t);
    if digits == [] then None else Some(DigitsValue(digits))
  }

  /** `parseInt(s)` for decimal text: leading white space is skipped, then an
      optional sign, then the longest run of digits; `None` stands for `NaN`. */
  function ParseInt(s: string): Option<int> {
    ParseSigned(TrimStart(s))
  }

  /** `parseInt` after the white space: an optional sign, then the digit run. */
  function ParseSigned(t: string): Option<int> {
    if t != [] && t[0] == '-' then
      match ParseDigits(t[1..])
      case Some(v) => Some(0 - v)
      case None => None
    else if t != [] && t[0] == '+' then
      match ParseDigits(t[1..])
      case Some(v) => Some(v)
      case None => None
    else
      match ParseDigits(t)
      case Some(v) => Some(v)
      case None => None
  }

  /** `parseInt(localStorage.getItem(key)) || 0`: a missing key or a value that
      does not parse reads as 0. */
  function LoadCounter(store: map<string, string>, key: string): (n: int)
    ensures key !in store ==> n == 0
    ensures key in store && ParseInt(store[key]).None? ==> n == 0
    ensures key in store && ParseInt(store[key]).Some? ==> n == ParseInt(store[key]).value
  {
    if key in store then
      match ParseInt(store[key])
      case Some(v) => v
      case None => 0
    else 0
  }

  /** The store after `saveScores`: both counters written, every other key untouched. */
  function SaveScores(store: map<string, string>, wins: int, losses: int): (r: map<string, string>)
    ensures r.Keys == store.Keys + {WinsKey, LossesKey}
    ensures forall k :: k in store && k != WinsKey && k != LossesKey ==> r[k] == store[k]
  {
    store[WinsKey := IntToString(wins)][LossesKey := IntToString(losses)]
  }

  /** Reading back the decimal text of a natural number gives the number. */
  lemma {:induction false} DigitsValueOfNat(n: nat)
    ensures DigitsValue(NatToString(n)) == n
  {
    if n >= 10 {
      DigitsValueOfNat(n / 10);
      var s := NatToString(n);
      assert s[..|s| - 1] == NatToString(n / 10);
    }
  }

  /** The digit run of a digit string followed by a non-digit is that digit string. */
  lemma {:induction false} DigitPrefixOfDigits(p: string, rest: string)
    requires AllDigits(p)
    requires rest == [] || !IsDigit(rest[0])
    ensures DigitPrefix(p + rest) == p
  {
    if p != [] {
      assert (p + rest)[1..] == p[1..] + rest;
      DigitPrefixOfDigits(p[1..], rest);
    } else {
      assert p + rest == rest;
    }
  }

  /** The digit run of a digit string followed by a non-digit has the string's value. */
  lemma ParseDigitsOf(p: string, rest: string)
    requires p != [] && AllDigits(p)
    requires rest == [] || !IsDigit(rest[0])
    ensures ParseDigits(p + rest) == Some(DigitsValue(p))
  {
    DigitPrefixOfDigits(p, rest);
  }

  /** White-space skipping leaves a string that starts with a digit or a sign alone. */
  lemma TrimStartOfNumber(s: string)
    requires s != [] && (IsDigit(s[0]) || s[0] == '-')
    ensures TrimStart(s) == s
  {
    assert !IsSpace(s[0]);
  }

  /** `parseInt` of the decimal text of a natural number followed by a non-digit. */
  lemma ParseIntOfNat(n: nat, rest: string)
    requires rest == [] || !IsDigit(rest[0])
    ensures ParseInt(NatToString(n) + rest) == Some(n)
  {
    TrimStartOfNumber(NatToString(n) + rest);
    DigitsValueOfNat(n);
    ParseDigitsOf(NatToString(n), rest);
  }

  /** `parseInt` of `-`, the decimal text of a natural number and a non-digit. */
  lemma ParseIntOfNegated(n: nat, rest: string)
    requires rest == [] || !IsDigit(rest[0])
    ensures ParseInt("-" + NatToString(n) + rest) == Some(0 - n)
  {
    var d := NatToString(n);
    var s := "-" + d + rest;
    TrimStartOfNumber(s);
    assert s[1..] == d + rest by {
      assert forall i :: 0 <= i < |d + rest| ==> s[1..][i] == (d + rest)[i];
    }
    DigitsValueOfNat(n);
    ParseDigitsOf(d, rest);
  }

  /** `parseInt` reads back what `setItem` wrote, whatever follows the number. */
  lemma ParseIntOfString(n: int, rest: string)
    requires rest == [] || !IsDigit(rest[0])
    ensures ParseInt(IntToString(n) + rest) == Some(n)
  {
    if n < 0 {
      ParseIntOfNegated(-n, rest);
    } else {
      ParseIntOfNat(n, rest);
    }
  }

  /** Loading the scores after saving them gives back the saved counters. */
  lemma LoadAfterSave(store: map<string, string>, wins: int, losses: int)
    ensures LoadCounter(SaveScores(store, wins, losses), WinsKey) == wins
    ensures LoadCounter(SaveScores(store, wins, losses), LossesKey) == losses
  {
    ParseIntOfString(wins, []);
    ParseIntOfString(losses, []);
    assert IntToString(wins) + [] == IntToString(wins);
    assert IntToString(losses) + [] == IntToString(losses);
  }
}
