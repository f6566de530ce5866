/** Trimming and splitting of strings, as the text functions of the original's language do it. */
module Text {

  /** White space in the sense of Unicode. */
  predicate IsSpace(c: char) {
    || '\t' <= c <= '\r' || c == ' ' || c == '\U{85}' || c == '\U{A0}' || c == '\U{1680}'
    || '\U{2000}' <= c <= '\U{200A}' || c == '\U{2028}' || c == '\U{2029}' || c == '\U{202F}'
    || c == '\U{205F}' || c == '\U{3000}'
  }

  function TrimLeft(s: string): string {
    if s != [] && IsSpace(s[0]) then TrimLeft(s[1..]) else s
  }

  function TrimRight(s: string): string {
    if s != [] && IsSpace(s[|s| - 1]) then TrimRight(s[..|s| - 1]) else s
  }

  function TrimSpace(s: string): string {
    TrimRight(TrimLeft(s))
  }

  predicate Blank(s: string) {
    forall c | c in s :: IsSpace(c)
  }

  lemma {:induction false} TrimLeftBlank(s: string)
    ensures TrimLeft(s) == [] <==> Blank(s)
  {
    if s != [] && IsSpace(s[0]) {
      TrimLeftBlank(s[1..]);
      assert s == [s[0]] + s[1..];
    } else if s != [] {
      assert s[0] in s;
    }
  }

  lemma {:induction false} TrimRightBlank(s: string)
    ensures TrimRight(s) == [] <==> Blank(s)
  {
    if s != [] && IsSpace(s[|s| - 1]) {
      TrimRightBlank(s[..|s| - 1]);
      assert s == s[..|s| - 1] + [s[|s| - 1]];
    } else if s != [] {
      assert s[|s| - 1] in s;
    }
  }

  lemma {:induction false} TrimLeftCut(s: string) returns (i: nat)
    ensures i <= |s| && TrimLeft(s) == s[i..] && Blank(s[..i]) && (i < |s| ==> !IsSpace(s[i]))
  {
    i := 0;
    if s != [] && IsSpace(s[0]) {
      var k := TrimLeftCut(s[1..]);
      i := k + 1;
      assert s[..i] == [s[0]] + s[1..][..k];
    }
  }

  lemma {:induction false} TrimRightCut(s: string) returns (j: nat)
    ensures j <= |s| && TrimRight(s) == s[..j] && Blank(s[j..]) && (j > 0 ==> !IsSpace(s[j - 1]))
  {
    j := |s|;
    if s != [] && IsSpace(s[|s| - 1]) {
      var front := s[..|s| - 1];
      j := TrimRightCut(front);
      assert s[j..] == front[j..] + [s[|s| - 1]];
    }
  }

  /** Exactly the white space at both ends goes. */
  lemma TrimSpaceExactly(s: string) returns (i: nat, j: nat)
    ensures i <= j <= |s| && TrimSpace(s) == s[i..j] && Blank(s[..i]) && Blank(s[j..])
    ensures i < j ==> !IsSpace(s[i]) && !IsSpace(s[j - 1])
  {
    i := TrimLeftCut(s);
    var k := TrimRightCut(s[i..]);
    j := i + k;
    assert s[i..][..k] == s[i..j] && s[i..][k..] == s[j..];
  }

  /** The white space of the Unicode standard by code point: property White_Space. */
  lemma SpaceCodes(c: char)
    ensures IsSpace(c) <==> var n := c as int;
      9 <= n <= 13 || 0x2000 <= n <= 0x200A
      || n in {0x20, 0x85, 0xA0, 0x1680, 0x2028, 0x2029, 0x202F, 0x205F, 0x3000}
  {
  }

  lemma {:induction false} TrimLeftKeeps(s: string)
    ensures Blank(TrimLeft(s)) <==> Blank(s)
  {
    if s != [] && IsSpace(s[0]) {
      TrimLeftKeeps(s[1..]);
      assert s == [s[0]] + s[1..];
    }
  }

  /** A string trims to nothing exactly when it is all white space. */
  lemma TrimSpaceBlank(s: string)
    ensures TrimSpace(s) == [] <==> Blank(s)
  {
    TrimRightBlank(TrimLeft(s));
    TrimLeftKeeps(s);
  }

  /** Lower case, as far as it can produce a plain Latin letter: capitals, the kelvin sign and the dotted capital I. */
  function Lower(s: string): (r: string)
    ensures |r| == |s|
    ensures forall i | 0 <= i < |s| ::
              var c, l := s[i] as int, r[i] as int;
              if 65 <= c <= 90 then l == c + 32
              else if c == 0x212A then l == 107 else if c == 0x130 then l == 105 else l == c
  {
    seq(|s|, i requires 0 <= i < |s| =>
      if 'A' <= s[i] <= 'Z' then s[i] - 'A' + 'a'
      else if s[i] == '\U{212A}' then 'k'
      else if s[i] == '\U{130}' then 'i'
      else s[i])
  }

  // ---------------------------------------------------------------- splitting

  /** The first position of a character, or the length. */
  function Find(s: string, c: char): (k: nat)
    ensures k <= |s| && c !in s[..k] && (k < |s| ==> s[k] == c)
  {
    if s == [] || s[0] == c then 0
    else
      var k := Find(s[1..], c);
      assert s[..k + 1] == [s[0]] + s[1..][..k];
      k + 1
  }

  lemma {:induction false} FindAt(s: string, c: char, rest: string)
    requires c !in s
    ensures Find(s + [c] + rest, c) == |s|
  {
    if s != [] {
      assert (s + [c] + rest)[1..] == s[1..] + [c] + rest;
      FindAt(s[1..], c, rest);
    }
  }

  /** The pieces between separators; always at least one. */
  function Split(s: string, c: char): (pieces: seq<string>)
    ensures forall p | p in pieces :: c !in p
    ensures c !in s ==> pieces == [s]
    decreases |s|
  {
    var k := Find(s, c);
    if k == |s| then [s] else [s[..k]] + Split(s[k + 1..], c)
  }

  lemma SplitFirst(piece: string, c: char, rest: string)
    requires c !in piece
    ensures Split(piece + [c] + rest, c) == [piece] + Split(rest, c)
  {
    FindAt(piece, c, rest);
    var s := piece + [c] + rest;
    assert s[..|piece|] == piece && s[|piece| + 1..] == rest;
  }

  // ---------------------------------------------------------------- decimal numbers

  const MIN_INT := -0x8000_0000_0000_0000
  const MAX_INT := 0x7FFF_FFFF_FFFF_FFFF

  predicate InRange(n: int) {
    MIN_INT <= n <= MAX_INT
  }

  predicate IsDigit(c: char) {
    '0' <= c <= '9'
  }

  predicate Digits(s: string) {
    s != [] && forall c | c in s :: IsDigit(c)
  }

  function Value(s: string): nat
    requires forall c | c in s :: IsDigit(c)
  {
    if s == [] then 0
    else
      var c := s[|s| - 1];
      assert c in s && IsDigit(c);
      Value(s[..|s| - 1]) * 10 + (c as int - '0' as int)
  }

  datatype Number = Number(value: int) | NotANumber

  /** An optional sign and decimal digits, within 64 bits. */
  function Atoi(s: string): Number {
    var signed := s != [] && (s[0] == '-' || s[0] == '+');
    var digits := if signed then s[1..] else s;
    if !Digits(digits) then NotANumber
    else
      var v: int := Value(digits);
      var n := if s[0] == '-' then -v else v;
      if InRange(n) then Number(n) else NotANumber
  }

  function Decimal(n: nat): string {
    if n < 10 then [(n as char) + '0'] else Decimal(n / 10) + [((n % 10) as char) + '0']
  }

  function Itoa(n: int): string {
    if n < 0 then "-" + Decimal(-n) else Decimal(n)
  }

  lemma {:induction false} DecimalValue(n: nat)
    ensures Digits(Decimal(n)) && Value(Decimal(n)) == n
  {
    if n >= 10 {
      DecimalValue(n / 10);
      var s := Decimal(n);
      assert s[..|s| - 1] == Decimal(n / 10);
    } else {
      assert Decimal(n)[..0] == [];
    }
  }

  lemma {:induction false} DecimalFirst(n: nat)
    ensures Decimal(n) != [] && (n > 0 ==> Decimal(n)[0] != '0')
    ensures n < 10 ==> |Decimal(n)| == 1
  {
    if n >= 10 {
      DecimalFirst(n / 10);
    }
  }

  /** Digits without a leading zero, behind a minus for negative numbers. */
  lemma ItoaForm(n: int)
    ensures n >= 0 ==> Digits(Itoa(n)) && (|Itoa(n)| > 1 ==> Itoa(n)[0] != '0')
    ensures n < 0 ==> Itoa(n)[0] == '-' && Digits(Itoa(n)[1..]) && Itoa(n)[1] != '0'
  {
    DecimalFirst(if n < 0 then -n else n);
    DecimalValue(if n < 0 then -n else n);
    assert n < 0 ==> Itoa(n)[1..] == Decimal(-n);
  }

  lemma AtoiDigits(digits: string)
    requires Digits(digits)
    ensures InRange(Value(digits)) ==> Atoi(digits) == Number(Value(digits))
    ensures InRange(-(Value(digits) as int)) ==> Atoi("-" + digits) == Number(-(Value(digits) as int))
  {
    assert digits[0] in digits;
    assert ("-" + digits)[1..] == digits;
  }

  /** What is printed in decimal reads back. */
  lemma AtoiItoa(n: int)
    requires InRange(n)
    ensures Atoi(Itoa(n)) == Number(n)
    ensures forall c | c in Itoa(n) :: IsDigit(c) || c == '-'
  {
    var size := if n < 0 then -n else n;
    DecimalValue(size);
    AtoiDigits(Decimal(size));
    assert forall c | c in Decimal(size) :: IsDigit(c);
  }

  /** Decimal digits with or without a sign stand for the number. */
  predicate Denotes(s: string, n: int) {
    || (Digits(s) && Value(s) == n)
    || (s != [] && s[0] == '+' && Digits(s[1..]) && Value(s[1..]) == n)
    || (s != [] && s[0] == '-' && Digits(s[1..]) && Value(s[1..]) + n == 0)
  }

  /** Exactly the numbers of 64 bits are read. */
  lemma AtoiExactly(s: string, n: int)
    ensures Atoi(s) == Number(n) <==> Denotes(s, n) && -9223372036854775808 <= n <= 9223372036854775807
  {
    if Digits(s) {
      assert s[0] in s;
    }
  }

  /** A digit more shifts the value by one place. */
  lemma ValueDigit(s: string, c: char)
    requires (forall d | d in s :: IsDigit(d)) && IsDigit(c)
    ensures 48 <= c as int <= 57 && Value([]) == 0 && Value(s + [c]) == Value(s) * 10 + (c as int - 48)
  {
    assert (s + [c])[..|s|] == s;
  }
}
