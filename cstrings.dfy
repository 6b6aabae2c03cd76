/**
 * The pieces of the C library that the launcher relies on, over character
 * arrays: strlen, strcpy and strncpy into a buffer, sprintf's "%d", atoi and
 * tolower. A C string is a character sequence that ends at its first NUL.
 */
module CStrings {

  const NUL: char := '\0'

  predicate NoNul(s: string) { NUL !in s }

  /** The length of the C string held by s: the index of its first NUL, or |s| if there is none. */
  function CLength(s: seq<char>): (n: nat)
    ensures n <= |s|
    ensures NoNul(s[..n])
    ensures n < |s| ==> s[n] == NUL
  {
    if s == [] || s[0] == NUL then 0
    else
      var m := CLength(s[1..]);
      assert s[..m + 1] == [s[0]] + s[1..][..m];
      m + 1
  }

  /** A NUL-free string followed by a NUL has exactly that string's length. */
  lemma {:induction false} CLengthOfTerminated(t: string, rest: seq<char>)
    requires NoNul(t)
    ensures CLength(t + [NUL] + rest) == |t|
  {
    if t != [] {
      assert (t + [NUL] + rest)[1..] == t[1..] + [NUL] + rest;
      CLengthOfTerminated(t[1..], rest);
    }
  }

  /** strlen(a): scans for the terminating NUL. */
  method StrLen(a: array<char>) returns (n: nat)
    requires NUL in a[..]
    ensures n < a.Length && a[n] == NUL
    ensures NoNul(a[..n])
  {
    n := 0;
    while a[n] != NUL
      invariant n < a.Length
      invariant NoNul(a[..n])
      invariant NUL in a[n..]
      decreases a.Length - n
    {
      assert a[n..] == [a[n]] + a[n + 1..];
      n := n + 1;
    }
  }

  /**
   * strcpy(dst + at, text) for a C string text (and likewise the output of
   * sprintf): the characters of text and a terminating NUL, nothing else.
   */
  method Write(dst: array<char>, at: nat, text: string)
    requires NoNul(text)
    requires at + |text| < dst.Length
    modifies dst
    ensures dst[..at] == old(dst[..at])
    ensures dst[at..at + |text|] == text
    ensures dst[at + |text|] == NUL
    ensures dst[at + |text| + 1..] == old(dst[at + |text| + 1..])
  {
    var i := 0;
    while i < |text|
      invariant 0 <= i <= |text|
      invariant dst[..at] == old(dst[..at])
      invariant dst[at..at + i] == text[..i]
      invariant dst[at + |text| + 1..] == old(dst[at + |text| + 1..])
    {
      dst[at + i] := text[i];
      i := i + 1;
    }
    dst[at + |text|] := NUL;
  }

  /**
   * strncpy(dst, src + from, n): the first n characters of the C string at
   * src + from, padded with NULs when it is shorter than n. When it is at
   * least n long, no NUL is written at all.
   */
  method StrNCpy(dst: array<char>, src: array<char>, from: nat, n: nat)
    requires dst != src
    requires from <= src.Length
    requires n <= dst.Length
    requires CLength(src[from..]) < src.Length - from || n <= src.Length - from
    modifies dst
    ensures forall i :: 0 <= i < n ==>
      dst[i] == if i < CLength(src[from..]) then src[from + i] else NUL
    ensures dst[n..] == old(dst[n..])
  {
    var len := CLength(src[from..]);
    var i := 0;
    while i < n
      invariant 0 <= i <= n
      invariant forall j :: 0 <= j < i ==> dst[j] == if j < len then src[from + j] else NUL
      invariant dst[n..] == old(dst[n..])
    {
      dst[i] := if i < len then src[from + i] else NUL;
      i := i + 1;
    }
  }

  /** strcpy(dst, src + from): the C string at src + from and its NUL. */
  method StrCpy(dst: array<char>, src: array<char>, from: nat)
    requires dst != src
    requires from <= src.Length
    requires CLength(src[from..]) < src.Length - from
    requires CLength(src[from..]) < dst.Length
    modifies dst
    ensures dst[..CLength(src[from..])] == src[from..from + CLength(src[from..])]
    ensures dst[CLength(src[from..])] == NUL
    ensures dst[CLength(src[from..]) + 1..] == old(dst[CLength(src[from..]) + 1..])
  {
    var len := CLength(src[from..]);
    var i := 0;
    while i < len
      invariant 0 <= i <= len
      invariant dst[..i] == src[from..from + i]
      invariant dst[len + 1..] == old(dst[len + 1..])
    {
      dst[i] := src[from + i];
      i := i + 1;
    }
    dst[len] := NUL;
  }

  /** tolower() on the ASCII letters; every other character is returned as it is. */
  function ToLower(c: char): char
  {
    if 'A' <= c <= 'Z' then (c as int + 32) as char else c
  }

  predicate IsDigit(c: char) { '0' <= c <= '9' }

  function DigitValue(c: char): nat requires IsDigit(c) { c as int - '0' as int }

  function DigitChar(d: nat): char requires d < 10 { ('0' as int + d) as char }

  /** sprintf's "%d" for a non-negative value: its decimal digits, most significant first. */
  function Decimal(n: nat): (s: string)
    ensures |s| >= 1
    ensures forall i :: 0 <= i < |s| ==> IsDigit(s[i])
  {
    if n < 10 then [DigitChar(n)] else Decimal(n / 10) + [DigitChar(n % 10)]
  }

  /** The number of decimal digits "%d" prints: one below 10, two below 100, three or more from 100 on. */
  lemma {:induction false} DecimalLength(n: nat)
    ensures n < 10 ==> |Decimal(n)| == 1
    ensures 10 <= n < 100 ==> |Decimal(n)| == 2
    ensures 100 <= n ==> |Decimal(n)| >= 3
  {
    if n >= 10 {
      DecimalLength(n / 10);
    }
  }

  /** The value of a string of decimal digits. */
  function DigitsValue(d: string): nat
    requires forall i :: 0 <= i < |d| ==> IsDigit(d[i])
  {
    if d == [] then 0 else DigitsValue(d[..|d| - 1]) * 10 + DigitValue(d[|d| - 1])
  }

  /** The length of the longest prefix of s made of digits. */
  function DigitPrefix(s: string): (n: nat)
    ensures n <= |s|
    ensures forall i :: 0 <= i < n ==> IsDigit(s[i])
    ensures n < |s| ==> !IsDigit(s[n])
  {
    if s == [] || !IsDigit(s[0]) then 0 else 1 + DigitPrefix(s[1..])
  }

  /** isspace() in the C locale. */
  predicate IsSpace(c: char)
  {
    c == ' ' || c == '\t' || c == '\n' || c == 11 as char || c == 12 as char || c == '\r'
  }

  function SkipSpaces(s: string): string
  {
    if s != [] && IsSpace(s[0]) then SkipSpaces(s[1..]) else s
  }

  /** The unsigned part of atoi: the value of the leading run of digits, 0 if there is none. */
  function LeadingValue(s: string): nat
  {
    DigitsValue(s[..DigitPrefix(s)])
  }

  /**
   * atoi(s): leading white space skipped, an optional sign, then as many
   * digits as follow; 0 when no digits follow.
   */
  function Atoi(s: string): int
  {
    var t := SkipSpaces(s);
    if t != [] && t[0] == '-' then -(LeadingValue(t[1..]) as int)
    else if t != [] && t[0] == '+' then LeadingValue(t[1..])
    else LeadingValue(t)
  }

  /** atoi reads back what "%d" prints. */
  lemma AtoiDecimal(n: nat)
    ensures Atoi(Decimal(n)) == n
  {
    var d := Decimal(n);
    assert !IsSpace(d[0]) && d[0] != '-' && d[0] != '+';
    assert SkipSpaces(d) == d;
    DigitPrefixOfDigits(d);
    assert d[..|d|] == d;
    DigitsValueOfDecimal(n);
  }

  lemma {:induction false} DigitPrefixOfDigits(d: string)
    requires forall i :: 0 <= i < |d| ==> IsDigit(d[i])
    ensures DigitPrefix(d) == |d|
  {
    if d != [] {
      DigitPrefixOfDigits(d[1..]);
    }
  }

  lemma {:induction false} DigitsValueOfDecimal(n: nat)
    ensures DigitsValue(Decimal(n)) == n
  {
    if n >= 10 {
      var d := Decimal(n);
      assert d[..|d| - 1] == Decimal(n / 10);
      DigitsValueOfDecimal(n / 10);
    }
  }
}
