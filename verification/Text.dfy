/** The string functions of the Go library that the service's decisions rest on. */
module Text {
  import opened Domain

  // ------------------------------------------------------------- decimals

  function DigitChar(d: int): char
    requires 0 <= d < 10
  {
    ['0', '1', '2', '3', '4', '5', '6', '7', '8', '9'][d]
  }

  predicate IsDigit(c: char) {
    '0' <= c <= '9'
  }

  function DigitValue(c: char): int
    requires IsDigit(c)
  {
    c as int - '0' as int
  }

  predicate AllDigits(s: string) {
    forall i | 0 <= i < |s| :: IsDigit(s[i])
  }

  function DecimalNat(n: nat): (s: string)
    ensures s != "" && AllDigits(s)
  {
    if n < 10 then [DigitChar(n)] else DecimalNat(n / 10) + [DigitChar(n % 10)]
  }

  function Decimal(n: int): string {
    if n < 0 then "-" + DecimalNat(-n) else DecimalNat(n)
  }

  function ValueOf(digits: string): nat
    requires AllDigits(digits)
  {
    if digits == "" then 0
    else 10 * ValueOf(digits[..|digits| - 1]) + DigitValue(digits[|digits| - 1])
  }

  /** `strconv.Atoi` on a 64-bit platform. */
  function Atoi(s: string): Option<int> {
    if s == "" then None
    else
      var body := if s[0] == '-' || s[0] == '+' then s[1..] else s;
      if body == "" || !AllDigits(body) then None
      else
        var v: int := if s[0] == '-' then 0 - ValueOf(body) else ValueOf(body);
        if -0x8000_0000_0000_0000 <= v <= 0x7FFF_FFFF_FFFF_FFFF then Some(v) else None
  }

  lemma {:induction false} ValueOfDecimal(n: nat)
    ensures ValueOf(DecimalNat(n)) == n
  {
    if n >= 10 {
      ValueOfDecimal(n / 10);
      var s := DecimalNat(n);
      assert s[..|s| - 1] == DecimalNat(n / 10);
    } else {
      var s := DecimalNat(n);
      assert s[..|s| - 1] == "";
    }
  }

  /** Reading back what was written, with or without a plus sign; what does not fit 64
      bits is no number. */
  lemma AtoiDecimal(n: int)
    ensures Atoi(Decimal(n)) == if -0x8000_0000_0000_0000 <= n <= 0x7FFF_FFFF_FFFF_FFFF then Some(n) else None
    ensures 0 <= n ==> Atoi("+" + Decimal(n)) == Atoi(Decimal(n))
  {
    var m := if n < 0 then -n else n;
    ValueOfDecimal(m);
    if n < 0 {
      assert Decimal(n)[1..] == DecimalNat(m);
    } else {
      assert IsDigit(DecimalNat(m)[0]);
      assert ("+" + Decimal(n))[1..] == DecimalNat(m);
    }
  }

  // ------------------------------------------------------ joining, searching

  function Join(parts: seq<string>, separator: char): string {
    if |parts| == 0 then ""
    else if |parts| == 1 then parts[0]
    else parts[0] + [separator] + Join(parts[1..], separator)
  }

  function IndexOf(s: string, c: char): (i: nat)
    ensures i <= |s|
    ensures i < |s| ==> s[i] == c
    ensures forall j | 0 <= j < i :: s[j] != c
  {
    if s == "" || s[0] == c then 0 else 1 + IndexOf(s[1..], c)
  }

  function Split(s: string, separator: char): seq<string>
    decreases |s|
  {
    var i := IndexOf(s, separator);
    if i == |s| then [s] else [s[..i]] + Split(s[i + 1..], separator)
  }

  lemma {:induction false} SplitJoin(parts: seq<string>, separator: char)
    requires parts != []
    requires forall i | 0 <= i < |parts| :: separator !in parts[i]
    ensures Split(Join(parts, separator), separator) == parts
  {
    var s := Join(parts, separator);
    var i := IndexOf(s, separator);
    if |parts| > 1 {
      SplitJoin(parts[1..], separator);
      assert s[|parts[0]|] == separator;
      assert i == |parts[0]| by {
        assert forall j | 0 <= j < |parts[0]| :: s[j] == parts[0][j];
      }
      assert s[..i] == parts[0];
      assert s[i + 1..] == Join(parts[1..], separator);
    } else {
      assert i == |s|;
    }
  }

  predicate OccursAt(s: string, part: string, i: int) {
    0 <= i <= |s| - |part| && s[i..i + |part|] == part
  }

  predicate Contains(s: string, part: string) {
    exists i | 0 <= i <= |s| :: OccursAt(s, part, i)
  }

  /** Lower case, for the letters whose lower case is ASCII. */
  function LowerChar(c: char): char {
    if 'A' <= c <= 'Z' then (c as int + 32) as char
    else if c == '\U{0130}' then 'i'
    else if c == '\U{212A}' then 'k'
    else c
  }

  function ToLower(s: string): string {
    seq(|s|, i requires 0 <= i < |s| => LowerChar(s[i]))
  }

  /** The white space of `strings.TrimSpace`. */
  predicate IsSpace(c: char) {
    || '\t' <= c <= '\r'
    || c == ' '
    || c == '\U{0085}'
    || c == '\U{00A0}'
    || c == '\U{1680}'
    || '\U{2000}' <= c <= '\U{200A}'
    || c == '\U{2028}'
    || c == '\U{2029}'
    || c == '\U{202F}'
    || c == '\U{205F}'
    || c == '\U{3000}'
  }

  /** `strings.TrimSpace(s) == ""`. */
  predicate Blank(s: string) {
    forall i | 0 <= i < |s| :: IsSpace(s[i])
  }

  lemma AsciiSpaces(c: char)
    requires c as int < 0x80
    ensures IsSpace(c) <==> c == ' ' || c == '\t' || c == '\n' || c == '\U{000B}' || c == '\U{000C}' || c == '\r'
  {
  }

  /** The length of a string in UTF-8 bytes, which is what Go's `len` counts. */
  function ByteLength(s: string): nat {
    if s == "" then 0
    else
      var c := s[|s| - 1] as int;
      ByteLength(s[..|s| - 1]) +
      (if c < 0x80 then 1 else if c < 0x800 then 2 else if c < 0x10000 then 3 else 4)
  }

  lemma {:induction false} ByteLengthRange(s: string)
    ensures |s| <= ByteLength(s) <= 4 * |s|
    ensures ByteLength(s) == |s| <==> forall i | 0 <= i < |s| :: s[i] as int < 0x80
  {
    if s != "" {
      ByteLengthRange(s[..|s| - 1]);
    }
  }

  /** A number is a sign, if any, and digits. */
  lemma AtoiRejects(s: string, i: nat)
    requires i < |s| && !('0' <= s[i] <= '9') && !(i == 0 && (s[i] == '-' || s[i] == '+'))
    ensures Atoi(s) == None
  {
    if s[0] == '-' || s[0] == '+' {
      assert i > 0 && s[1..][i - 1] == s[i];
    }
  }
}
