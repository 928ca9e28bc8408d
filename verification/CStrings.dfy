module Options {
  datatype Option<+T> = None | Some(value: T)
}

/** The C-string and GLib text primitives that the stream protocol is written with.
    Bytes are characters; a C string is a byte string read up to its first NUL. */
module CStrings {

  const NUL: char := '\0'
  const NEWLINE: char := '\n'

  ghost predicate NulFree(s: string) {
    NUL !in s
  }

  /** The offset of the first `c` in `s`, or |s| when there is none. */
  function Find(s: string, c: char): (i: nat)
    ensures i <= |s|
    ensures forall j :: 0 <= j < i ==> s[j] != c
    ensures i < |s| ==> s[i] == c
    ensures i == |s| <==> c !in s
  {
    if s == "" || s[0] == c then 0
    else
      var i := 1 + Find(s[1..], c);
      assert forall j :: 0 < j < i ==> s[j] == s[1..][j - 1];
      i
  }

  lemma FindUnique(a: string, c: char, b: string)
    requires c !in a
    ensures Find(a + [c] + b, c) == |a|
  {
    var s := a + [c] + b;
    assert s[|a|] == c;
    assert forall j :: 0 <= j < |a| ==> s[j] == a[j];
  }

  /** What remains of a byte string once it is copied as a C string. */
  function CString(s: string): (r: string)
    ensures NUL !in r
    ensures r == s <==> NUL !in s
  {
    s[..Find(s, NUL)]
  }

  function Lower(c: char): char {
    if 'A' <= c <= 'Z' then c + 32 as char else c
  }

  /** g_ascii_strcasecmp(a, b) == 0. */
  predicate CaseEq(a: string, b: string) {
    |a| == |b| && forall i :: 0 <= i < |a| ==> Lower(a[i]) == Lower(b[i])
  }

  function Take(s: string, n: nat): string {
    if n <= |s| then s[..n] else s
  }

  /** g_ascii_strncasecmp(a, b, n) == 0. */
  predicate CaseEqN(a: string, b: string, n: nat) {
    CaseEq(Take(a, n), Take(b, n))
  }

  /** The pieces of `s` between separators, empty pieces included. */
  function Fields(s: string, sep: char): (r: seq<string>)
    ensures |r| > 0
    decreases |s|
  {
    var i := Find(s, sep);
    if i == |s| then [s] else [s[..i]] + Fields(s[i + 1..], sep)
  }

  /** g_strsplit(s, sep, 0): no piece at all for the empty string. */
  function Split(s: string, sep: char): seq<string> {
    if s == "" then [] else Fields(s, sep)
  }

  function Join(parts: seq<string>, sep: char): string {
    if |parts| == 0 then ""
    else if |parts| == 1 then parts[0]
    else parts[0] + [sep] + Join(parts[1..], sep)
  }

  lemma {:induction false} SplitJoin(parts: seq<string>, sep: char)
    requires |parts| > 0
    requires forall i :: 0 <= i < |parts| ==> sep !in parts[i]
    ensures Fields(Join(parts, sep), sep) == parts
  {
    if |parts| > 1 {
      var rest := Join(parts[1..], sep);
      FindUnique(parts[0], sep, rest);
      SplitJoin(parts[1..], sep);
      var s := parts[0] + [sep] + rest;
      assert s[..|parts[0]|] == parts[0];
      assert s[|parts[0]| + 1..] == rest;
    }
  }

  lemma {:induction false} JoinAvoids(parts: seq<string>, sep: char, c: char)
    requires c != sep
    requires forall i :: 0 <= i < |parts| ==> c !in parts[i]
    ensures c !in Join(parts, sep)
  {
    if |parts| > 1 {
      JoinAvoids(parts[1..], sep, c);
    }
  }
}

/** Decimal numerals as printf writes them and as the strtol family reads them. */
module Decimals {

  const UINT64_LIMIT: nat := 0x1_0000_0000_0000_0000
  const UINT32_LIMIT: nat := 0x1_0000_0000

  function Digit(d: nat): (c: char)
    requires d < 10
    ensures '0' <= c <= '9'
  {
    '0' + d as char
  }

  predicate IsDigit(c: char) {
    '0' <= c <= '9'
  }

  function Print(n: nat): (s: string)
    ensures |s| > 0
    ensures forall i :: 0 <= i < |s| ==> IsDigit(s[i])
  {
    if n < 10 then [Digit(n)] else Print(n / 10) + [Digit(n % 10)]
  }

  /** The value of the leading digits of `s`, continuing from `acc`. */
  function ScanDigits(s: string, acc: nat): nat {
    if s == "" || !IsDigit(s[0]) then acc
    else ScanDigits(s[1..], acc * 10 + (s[0] - '0') as nat)
  }

  predicate IsSpace(c: char) {
    c == ' ' || c == '\n' || c == '\t' || c == '\r' || c == 11 as char || c == 12 as char
  }

  function SkipSpace(s: string): string {
    if s != "" && IsSpace(s[0]) then SkipSpace(s[1..]) else s
  }

  function Negative(s: string): bool {
    s != "" && s[0] == '-'
  }

  function Unsigned(s: string): string {
    if s != "" && (s[0] == '-' || s[0] == '+') then s[1..] else s
  }

  /** g_ascii_strtoull(s, NULL, 10): saturates, and a minus sign negates modulo 2^64. */
  function StrToULL(s: string): (v: nat)
    ensures v < UINT64_LIMIT
  {
    var t := SkipSpace(s);
    var v := ScanDigits(Unsigned(t), 0);
    if v >= UINT64_LIMIT then UINT64_LIMIT - 1
    else if Negative(t) then (UINT64_LIMIT - v) % UINT64_LIMIT
    else v
  }

  /** strtol(s, NULL, 10) on a 64-bit long: saturates at both ends. */
  function StrToL(s: string): int {
    var t := SkipSpace(s);
    var v: int := ScanDigits(Unsigned(t), 0);
    if Negative(t) then (if v > 0x8000_0000_0000_0000 then -0x8000_0000_0000_0000 else -v)
    else if v > 0x7FFF_FFFF_FFFF_FFFF then 0x7FFF_FFFF_FFFF_FFFF
    else v
  }

  function ToUInt32(v: int): nat {
    v % UINT32_LIMIT
  }

  /** The conversion of a long to a 32-bit int. */
  function ToInt32(v: int): int {
    var u := v % UINT32_LIMIT;
    if u >= 0x8000_0000 then u - UINT32_LIMIT else u
  }

  lemma {:induction false} ScanSnoc(s: string, d: nat, acc: nat)
    requires d < 10
    requires forall i :: 0 <= i < |s| ==> IsDigit(s[i])
    ensures ScanDigits(s + [Digit(d)], acc) == ScanDigits(s, acc) * 10 + d
  {
    if s == "" {
      assert ScanDigits([Digit(d)][1..], acc * 10 + d) == acc * 10 + d;
    } else {
      assert (s + [Digit(d)])[1..] == s[1..] + [Digit(d)];
      ScanSnoc(s[1..], d, acc * 10 + (s[0] - '0') as nat);
    }
  }

  lemma {:induction false} ScanPrint(n: nat)
    ensures ScanDigits(Print(n), 0) == n
  {
    if n < 10 {
      assert ScanDigits([Digit(n)][1..], n) == n;
    } else {
      ScanPrint(n / 10);
      ScanSnoc(Print(n / 10), n % 10, 0);
    }
  }

  /** Reading back a printed number gives the number, for every reader in use. */
  lemma PrintReads(n: nat)
    ensures n < UINT64_LIMIT ==> StrToULL(Print(n)) == n
    ensures n < UINT64_LIMIT / 2 ==> StrToL(Print(n)) == n
    ensures n < UINT32_LIMIT ==> ToUInt32(StrToL(Print(n))) == n
  {
    ScanPrint(n);
    var s := Print(n);
    assert IsDigit(s[0]);
    assert SkipSpace(s) == s && Unsigned(s) == s && !Negative(s);
  }

  /** Numbers that do not fit saturate. Behind a minus sign an unsigned number is negated modulo 2^64, a
      signed one is negative. */
  lemma OutOfRange(n: nat)
    ensures n >= 0x1_0000_0000_0000_0000 ==> StrToULL(Print(n)) == 0xFFFF_FFFF_FFFF_FFFF
    ensures n >= 0x8000_0000_0000_0000 ==> StrToL(Print(n)) == 0x7FFF_FFFF_FFFF_FFFF
    ensures 0 < n < 0x1_0000_0000_0000_0000 ==> StrToULL("-" + Print(n)) == 0x1_0000_0000_0000_0000 - n
    ensures n <= 0x8000_0000_0000_0000 ==> StrToL("-" + Print(n)) + n == 0
    ensures n > 0x8000_0000_0000_0000 ==> StrToL("-" + Print(n)) == -0x8000_0000_0000_0000
  {
    ScanPrint(n);
    var s, t := Print(n), "-" + Print(n);
    assert IsDigit(s[0]);
    assert SkipSpace(s) == s && Unsigned(s) == s && !Negative(s);
    assert t[1..] == s && SkipSpace(t) == t && Unsigned(t) == s && Negative(t);
  }
}
