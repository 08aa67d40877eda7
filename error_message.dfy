/** The text of every `usb::system_error`:
    "<operation>: failed with <decimal code> (<library name of the code>)".
    Decimal printing is modelled as `std::dec` writes a signed integer, and a
    parser for that text shows that the code can be read back from the
    message, so distinct codes give distinct messages. */
module ErrorMessages {
  import opened CTypes

  datatype Option<T> = None | Some(value: T)

  const FAILED_WITH: string := ": failed with "

  predicate IsDigit(c: char) {
    '0' <= c <= '9'
  }

  predicate AllDigits(s: string) {
    forall i :: 0 <= i < |s| ==> IsDigit(s[i])
  }

  /** What `std::dec` can print for an integer: an optional minus sign
      followed by at least one digit. */
  predicate IsDecimalText(s: string) {
    && |s| > 0
    && (s[0] == '-' ==> |s| > 1)
    && (s[0] == '-' || IsDigit(s[0]))
    && AllDigits(s[1..])
  }

  function DigitChar(d: int): (c: char)
    requires 0 <= d < 10
    ensures IsDigit(c) && DigitValue(c) == d
  {
    ('0' as int + d) as char
  }

  function DigitValue(c: char): int
    requires IsDigit(c)
  {
    c as int - '0' as int
  }

  /** The digits of `n`, most significant first, without leading zeros. */
  function NatToDecimal(n: nat): (s: string)
    ensures |s| > 0 && AllDigits(s)
    ensures s[0] == '0' ==> n == 0 && s == "0"
    decreases n
  {
    if n < 10 then [DigitChar(n)] else NatToDecimal(n / 10) + [DigitChar(n % 10)]
  }

  /** `os << std::dec << n` for a signed integer. */
  function IntToDecimal(n: int): (s: string)
    ensures IsDecimalText(s)
    ensures s[0] == '-' <==> n < 0
    ensures s[0] == '0' ==> s == "0"
    ensures s[0] == '-' ==> s[1] != '0'
  {
    if n < 0 then "-" + NatToDecimal(-n) else NatToDecimal(n)
  }

  function ParseNat(s: string): nat
    requires AllDigits(s)
  {
    if s == [] then 0 else 10 * ParseNat(s[..|s| - 1]) + DigitValue(s[|s| - 1])
  }

  function ParseInt(s: string): int
    requires IsDecimalText(s)
  {
    if s[0] == '-' then -(ParseNat(s[1..]) as int) else ParseNat(s)
  }

  lemma {:induction false} ParseNatToDecimal(n: nat)
    ensures ParseNat(NatToDecimal(n)) == n
    decreases n
  {
    if n >= 10 {
      var s := NatToDecimal(n);
      assert s[..|s| - 1] == NatToDecimal(n / 10);
      ParseNatToDecimal(n / 10);
    }
  }

  /** Reading back a printed integer gives the integer. */
  lemma ParseIntToDecimal(n: int)
    ensures ParseInt(IntToDecimal(n)) == n
  {
    if n < 0 {
      assert IntToDecimal(n)[1..] == NatToDecimal(-n);
      ParseNatToDecimal(-n);
    } else {
      ParseNatToDecimal(n);
    }
  }

  /** The characters of `s` before its first space. */
  function FirstWord(s: string): (w: string)
    ensures w <= s && ' ' !in w
  {
    if s == [] || s[0] == ' ' then [] else [s[0]] + FirstWord(s[1..])
  }

  lemma {:induction false} FirstWordOfWord(w: string, rest: string)
    requires ' ' !in w
    ensures FirstWord(w + " " + rest) == w
  {
    if w != [] {
      assert (w + " " + rest)[1..] == w[1..] + " " + rest;
      FirstWordOfWord(w[1..], rest);
    }
  }

  /** `usb::error_message(func, error_code)`.  The library's name for the
      code is looked up after narrowing the code to `int`. */
  function ErrorMessage(func: string, code: int, errorName: int32 -> string): (m: string)
    ensures func + FAILED_WITH + IntToDecimal(code) + " (" <= m
    ensures m[|m| - 1] == ')'
  {
    func + FAILED_WITH + IntToDecimal(code) + " (" + errorName(ToInt32(code)) + ")"
  }

  /** The code a message for `func` reports, if it is one. */
  function CodeOf(func: string, m: string): Option<int> {
    var prefix := func + FAILED_WITH;
    if |prefix| <= |m| && m[..|prefix|] == prefix then
      var word := FirstWord(m[|prefix|..]);
      if IsDecimalText(word) then Some(ParseInt(word)) else None
    else
      None
  }

  /** The message carries the operation's code, whatever the library calls it. */
  lemma ErrorMessageCode(func: string, code: int, errorName: int32 -> string)
    ensures CodeOf(func, ErrorMessage(func, code, errorName)) == Some(code)
  {
    var prefix := func + FAILED_WITH;
    var name := errorName(ToInt32(code));
    var m := ErrorMessage(func, code, errorName);
    var digits := IntToDecimal(code);
    assert m[|prefix|..] == digits + " " + ("(" + name + ")");
    FirstWordOfWord(digits, "(" + name + ")");
    ParseIntToDecimal(code);
  }

  /** The library's name a message for `func` reports, if it is one: the
      text between the " (" that follows the code and the closing ")". */
  function NameOf(func: string, m: string): Option<string> {
    var prefix := func + FAILED_WITH;
    if |prefix| <= |m| && m[..|prefix|] == prefix then
      var rest := m[|prefix|..];
      var word := FirstWord(rest);
      if |word| + 2 < |rest| && rest[|word|..|word| + 2] == " (" && rest[|rest| - 1] == ')' then
        Some(rest[|word| + 2..|rest| - 1])
      else
        None
    else
      None
  }

  /** The message carries the library's name for the code, narrowed to `int`. */
  lemma ErrorMessageName(func: string, code: int, errorName: int32 -> string)
    ensures NameOf(func, ErrorMessage(func, code, errorName)) == Some(errorName(ToInt32(code)))
  {
    var prefix := func + FAILED_WITH;
    var name := errorName(ToInt32(code));
    var m := ErrorMessage(func, code, errorName);
    var digits := IntToDecimal(code);
    var rest := m[|prefix|..];
    assert rest == digits + " " + ("(" + name + ")");
    FirstWordOfWord(digits, "(" + name + ")");
    assert rest[|digits|..|digits| + 2] == " (";
    assert rest[|digits| + 2..|rest| - 1] == name;
  }

  /** Distinct codes of one operation give distinct messages. */
  lemma ErrorMessageInjective(func: string, code1: int, code2: int, errorName: int32 -> string)
    requires ErrorMessage(func, code1, errorName) == ErrorMessage(func, code2, errorName)
    ensures code1 == code2
  {
    ErrorMessageCode(func, code1, errorName);
    ErrorMessageCode(func, code2, errorName);
  }
}
