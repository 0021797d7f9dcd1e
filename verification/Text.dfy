/** The string operations the source takes from its standard library, on sequences of characters. */
module Text {
  predicate IsSpace(c: char) {
    var u := c as int;
    || 9 <= u <= 13 || 0x2000 <= u <= 0x200a
    || u in [0x20, 0x85, 0xa0, 0x1680, 0x2028, 0x2029, 0x202f, 0x205f, 0x3000]
  }

  function TrimLeft(s: string): string {
    if s != "" && IsSpace(s[0]) then TrimLeft(s[1..]) else s
  }

  function TrimRight(s: string): string {
    if s != "" && IsSpace(s[|s| - 1]) then TrimRight(s[..|s| - 1]) else s
  }

  function TrimSpace(s: string): string { TrimRight(TrimLeft(s)) }

  // Lower case for the ASCII letters.
  function Lower(s: string): (r: string)
    ensures |r| == |s|
  {
    seq(|s|, i requires 0 <= i < |s| =>
      if 'A' <= s[i] <= 'Z' then ((s[i] as int) + 32) as char else s[i])
  }

  predicate OccursAt(s: string, part: string, i: nat) {
    i + |part| <= |s| && s[i..i + |part|] == part
  }

  predicate Contains(s: string, part: string) {
    exists i: nat :: i <= |s| && OccursAt(s, part, i)
  }

  function Digits(n: nat): string {
    (if n < 10 then "" else Digits(n / 10)) + [Digit(n % 10)]
  }

  // Decimal notation of an integer.
  function Decimal(n: int): string {
    if n < 0 then "-" + Digits(-n) else Digits(n)
  }

  // The parts with sep between neighbours.
  function Join(parts: seq<string>, sep: string): string {
    if parts == [] then ""
    else if |parts| == 1 then parts[0]
    else Join(parts[..|parts| - 1], sep) + sep + parts[|parts| - 1]
  }

  // ---- what these mean ----

  function DigitValue(c: char): int { c as int - '0' as int }

  function FromDigits(s: string): int {
    if s == "" then 0 else FromDigits(s[..|s| - 1]) * 10 + DigitValue(s[|s| - 1])
  }

  function Digit(d: nat): char
    requires d < 10
  {
    ['0', '1', '2', '3', '4', '5', '6', '7', '8', '9'][d]
  }

  lemma OneDigit(d: nat)
    requires d < 10
    ensures DigitValue(Digit(d)) == d && '0' <= Digit(d) <= '9' && (d > 0 ==> Digit(d) != '0')
  {
  }

  lemma OneMoreDigit(front: string, c: char)
    ensures FromDigits(front + [c]) == FromDigits(front) * 10 + DigitValue(c)
  {
    assert (front + [c])[..|front|] == front;
  }

  lemma {:induction false} DigitsReadBack(n: nat)
    ensures FromDigits(Digits(n)) == n && Digits(n) != "" && (n > 0 ==> Digits(n)[0] != '0')
    ensures forall i :: 0 <= i < |Digits(n)| ==> '0' <= Digits(n)[i] <= '9'
  {
    var q, d := n / 10, n % 10;
    OneDigit(d);
    if n >= 10 {
      DigitsReadBack(q);
      OneMoreDigit(Digits(q), Digit(d));
    } else {
      OneMoreDigit("", Digit(d));
    }
  }

  /** The notation of an integer reads back as that integer, without leading zeros. */
  lemma DecimalReadsBack(n: int)
    ensures var s := Decimal(n);
      && (n < 0 ==> s != "" && s[0] == '-' && FromDigits(s[1..]) == -n)
      && (n >= 0 ==> FromDigits(s) == n && (n > 0 ==> s[0] != '0'))
  {
    DigitsReadBack(if n < 0 then -n else n);
  }

  // s without the spaces at its ends: what lies between `from` and `to`.
  ghost predicate TrimmedAt(s: string, r: string, from: nat, to: nat) {
    && from <= to <= |s| && r == s[from..to]
    && (forall i :: 0 <= i < from ==> IsSpace(s[i])) && (forall i :: to <= i < |s| ==> IsSpace(s[i]))
    && (r != "" ==> !IsSpace(r[0]) && !IsSpace(r[|r| - 1]))
  }

  lemma {:induction false} LeftTrims(s: string) returns (from: nat)
    ensures from <= |s| && TrimLeft(s) == s[from..] && forall i :: 0 <= i < from ==> IsSpace(s[i])
    ensures TrimLeft(s) != "" ==> !IsSpace(TrimLeft(s)[0])
  {
    if s != "" && IsSpace(s[0]) {
      var rest := LeftTrims(s[1..]);
      from := rest + 1;
      forall i | 0 <= i < from ensures IsSpace(s[i]) {
        assert i > 0 ==> s[i] == s[1..][i - 1];
      }
    } else {
      from := 0;
    }
  }

  lemma {:induction false} RightTrims(s: string)
    ensures |TrimRight(s)| <= |s| && TrimRight(s) == s[..|TrimRight(s)|]
    ensures forall i :: |TrimRight(s)| <= i < |s| ==> IsSpace(s[i])
    ensures TrimRight(s) != "" ==> !IsSpace(TrimRight(s)[|TrimRight(s)| - 1])
  {
    if s != "" && IsSpace(s[|s| - 1]) {
      RightTrims(s[..|s| - 1]);
    }
  }

  /** Trimming takes away spaces at the ends, all of them, and nothing else. */
  lemma TrimSpaceTrims(s: string)
    ensures exists from: nat, to: nat :: TrimmedAt(s, TrimSpace(s), from, to)
  {
    var from := LeftTrims(s);
    var left := TrimLeft(s);
    RightTrims(left);
    var to := from + |TrimRight(left)|;
    forall i | to <= i < |s| ensures IsSpace(s[i]) {
      assert s[i] == left[i - from];
    }
    assert TrimmedAt(s, TrimSpace(s), from, to);
  }

  /** So a string is blank exactly when it is all spaces. */
  lemma BlankIsAllSpaces(s: string)
    ensures TrimSpace(s) == "" <==> forall i :: 0 <= i < |s| ==> IsSpace(s[i])
  {
    TrimSpaceTrims(s);
    var from: nat, to: nat :| TrimmedAt(s, TrimSpace(s), from, to);
    if TrimSpace(s) != "" {
      assert !IsSpace(s[from]);
    }
  }
}
