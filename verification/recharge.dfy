/** The recharge form: the month and year lists of the expiry select boxes, the
    amount table and the condition under which a recharge is accepted. */
module Recharge {

  /** A decimal digit. `str.isdigit` also accepts other Unicode digits; only
      the ASCII ones are modelled. */
  predicate IsAsciiDigit(c: char)
  {
    '0' <= c <= '9'
  }

  /** `s.isdigit()`: non-empty and made of digits only. */
  predicate IsDigits(s: string)
  {
    |s| > 0 && forall i :: 0 <= i < |s| ==> IsAsciiDigit(s[i])
  }

  function DigitValue(c: char): nat
    requires IsAsciiDigit(c)
  {
    c as int - '0' as int
  }

  /** The number a string of decimal digits denotes, read most significant first. */
  function DigitsValue(s: string): nat
    requires forall i :: 0 <= i < |s| ==> IsAsciiDigit(s[i])
  {
    if |s| == 0 then 0 else 10 * DigitsValue(s[..|s| - 1]) + DigitValue(s[|s| - 1])
  }

  function DigitChar(d: nat): (c: char)
    requires d < 10
    ensures IsAsciiDigit(c) && DigitValue(c) == d
  {
    ('0' as int + d) as char
  }

  /** `f"{i:02d}"`: two digits, zero-padded, that read back as `i`. */
  function Pad2(i: nat): (s: string)
    requires i < 100
    ensures |s| == 2 && IsDigits(s) && DigitsValue(s) == i
  {
    var s := [DigitChar(i / 10), DigitChar(i % 10)];
    assert s[..1][..0] == [];
    assert DigitsValue(s[..1]) == i / 10;
    assert DigitsValue(s) == 10 * (i / 10) + i % 10;
    s
  }

  /** `[f"{i:02d}" for i in range(1, 13)]`: "01" to "12", in order. */
  function Months(): (ms: seq<string>)
    ensures |ms| == 12
    ensures forall k :: 0 <= k < |ms| ==> |ms[k]| == 2 && IsDigits(ms[k]) && DigitsValue(ms[k]) == k + 1
  {
    seq(12, k requires 0 <= k < 12 => Pad2(k + 1))
  }

  /** `[f"{i:02d}" for i in range(0, 25)]`: "00" to "24", in order. */
  function Years(): (ys: seq<string>)
    ensures |ys| == 25
    ensures forall k :: 0 <= k < |ys| ==> |ys[k]| == 2 && IsDigits(ys[k]) && DigitsValue(ys[k]) == k
  {
    seq(25, k requires 0 <= k < 25 => Pad2(k))
  }

  /** `f"{selected_month}/{selected_year}"`: never empty, whatever was selected. */
  function MonthYear(month: string, year: string): (s: string)
    ensures |s| == |month| + 1 + |year| > 0
    ensures s[..|month|] == month && s[|month|] == '/' && s[|month| + 1..] == year
  {
    month + "/" + year
  }

  /** The three entries of the amount select box. */
  datatype AmountOption = TenUses | HundredUses | ThousandUses
  {
    function Label(): string
    {
      match this
      case TenUses => "10次,100元"
      case HundredUses => "100次,9990元"
      case ThousandUses => "1000次,99900元"
    }
  }

  /** `amount_map`: label of the select box to the number of uses it buys. */
  const AmountTable: map<string, nat> :=
    map["10次,100元" := 10, "100次,9990元" := 100, "1000次,99900元" := 1000]

  /** `amount_map[amount_option]`: every option of the select box is a key of
      the table, so the lookup never fails, and it buys 10, 100 or 1000 uses. */
  function Credits(option: AmountOption): (n: nat)
    ensures option.Label() in AmountTable && AmountTable[option.Label()] == n
    ensures n == 10 || n == 100 || n == 1000
  {
    AmountTable[option.Label()]
  }

  /** The condition on the recharge button, field by field, with Python
      truthiness for the strings. */
  predicate FormComplete(cardNumber: string, monthYear: string, cvv: string, amountLabel: string)
  {
    |cardNumber| > 0 && |monthYear| > 0 && IsDigits(cvv) && |cvv| == 3 && |amountLabel| > 0
  }

  /** A CVV: exactly three ASCII digits. */
  predicate IsCvv(cvv: string)
  {
    |cvv| == 3 && IsAsciiDigit(cvv[0]) && IsAsciiDigit(cvv[1]) && IsAsciiDigit(cvv[2])
  }

  /** With the expiry built from the select boxes and the amount taken from
      its select box, a recharge is accepted exactly when a card number was
      typed and the CVV is three digits. */
  lemma FormCompleteIff(cardNumber: string, month: string, year: string, cvv: string, option: AmountOption)
    ensures FormComplete(cardNumber, MonthYear(month, year), cvv, option.Label())
            <==> |cardNumber| > 0 && IsCvv(cvv)
  {
  }

  /** Different options buy different numbers of uses. */
  lemma CreditsInjective(a: AmountOption, b: AmountOption)
    requires Credits(a) == Credits(b)
    ensures a == b
  {
  }
}
