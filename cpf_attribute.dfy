/**
 * Model of CasaCorretorAPI/Validations/CPFAttribute.cs: validation of a CPF,
 * the Brazilian taxpayer number of 11 digits whose last two are mod-11 check
 * digits. `IsValidCpf` states the rule; the method `IsValid` follows the
 * attribute's loops and array and is proved to compute it.
 */
module CpfAttribute {
  import opened Wrappers
  import opened StringUtil

  /** The checksum-valid placeholder that is rejected explicitly. */
  const Blacklisted: string := "12345678909"

  /** Left-pads a digit string of at most 11 digits with '0' to 11 digits. */
  function ZeroPad(digits: string): string
    requires |digits| <= 11
  {
    seq(11 - |digits|, _ => '0') + digits
  }

  function DigitValue(c: char): int {
    c as int - '0' as int
  }

  function DigitValues(s: string): seq<int> {
    seq(|s|, i requires 0 <= i < |s| => DigitValue(s[i]))
  }

  /** The sum of (w - i) * d[i] over i < n. */
  function WeightedSum(d: seq<int>, n: nat, w: int): int
    requires n <= |d|
  {
    if n == 0 then 0 else WeightedSum(d, n - 1, w) + (w - (n - 1)) * d[n - 1]
  }

  /** The check digit a weighted sum demands: 0 when the remainder is below 2, else 11 minus it. */
  function CheckDigit(sum: int): int {
    var r := sum % 11;
    if r < 2 then 0 else 11 - r
  }

  predicate AllSame(cpf: string)
    requires |cpf| == 11
  {
    forall i :: 1 <= i < 11 ==> cpf[i] == cpf[0]
  }

  /** Digit 9 checks digits 0..8 with weights 10..2; digit 10 checks digits 0..9 with weights 11..2. */
  predicate CheckDigitsHold(d: seq<int>)
    requires |d| == 11
  {
    && d[9] == CheckDigit(WeightedSum(d, 9, 10))
    && d[10] == CheckDigit(WeightedSum(d, 10, 11))
  }

  /**
   * The rule: a string whose digits number at most 11 and whose zero-padded
   * 11 digits are neither all equal nor the placeholder, and carry both
   * check digits. Null and non-string values (None) are invalid.
   */
  predicate IsValidCpf(value: Option<string>) {
    match value
    case None => false
    case Some(text) =>
      var digits := RemoveNaoNumericos(text);
      && |digits| <= 11
      && var cpf := ZeroPad(digits);
         !AllSame(cpf) && cpf != Blacklisted && CheckDigitsHold(DigitValues(cpf))
  }

  /** CPFAttribute.IsValid, step by step as the attribute runs it. */
  method IsValid(value: Option<string>) returns (ok: bool)
    ensures ok == IsValidCpf(value)
  {
    if value.None? {
      return false;
    }
    var cpf := RemoveNaoNumericos(value.value);
    if |cpf| > 11 {
      return false;
    }
    cpf := PadWithZeros(cpf);
    var igual := HasAllSameDigits(cpf);
    if igual || cpf == Blacklisted {
      return false;
    }
    var numeros := ParseDigits(cpf);

    var soma := SumWithWeights(numeros, 9, 10);
    var resultado := soma % 11;
    if (resultado == 1 || resultado == 0) && numeros[9] != 0 {
      return false;
    } else if resultado > 1 && numeros[9] != 11 - resultado {
      return false;
    }

    soma := SumWithWeights(numeros, 10, 11);
    resultado := soma % 11;
    if (resultado == 1 || resultado == 0) && numeros[10] != 0 {
      return false;
    } else if resultado > 1 && numeros[10] != 11 - resultado {
      return false;
    }

    return true;
  }

  /** The loop that prepends '0' until the string has 11 characters. */
  method PadWithZeros(digits: string) returns (cpf: string)
    requires |digits| <= 11
    ensures cpf == ZeroPad(digits)
  {
    cpf := digits;
    while |cpf| != 11
      invariant |digits| <= |cpf| <= 11
      invariant cpf == seq(|cpf| - |digits|, _ => '0') + digits
      decreases 11 - |cpf|
    {
      cpf := ['0'] + cpf;
    }
  }

  /** The loop over positions 1..10 that clears `igual` at the first digit unlike the first. */
  method HasAllSameDigits(cpf: string) returns (igual: bool)
    requires |cpf| == 11
    ensures igual == AllSame(cpf)
  {
    igual := true;
    var i := 1;
    while i < 11 && igual
      invariant 1 <= i <= 11
      invariant igual <==> forall k :: 1 <= k < i ==> cpf[k] == cpf[0]
    {
      if cpf[i] != cpf[0] {
        igual := false;
      }
      i := i + 1;
    }
  }

  /** The loop that fills the array `numeros` with the value of each digit. */
  method ParseDigits(cpf: string) returns (numeros: array<int>)
    requires |cpf| == 11
    ensures fresh(numeros) && numeros[..] == DigitValues(cpf)
  {
    numeros := new int[11];
    for j := 0 to 11
      invariant forall k :: 0 <= k < j ==> numeros[k] == DigitValue(cpf[k])
    {
      numeros[j] := DigitValue(cpf[j]);
    }
  }

  /** The loop that accumulates `soma` over the first n digits with weights w, w-1, ... */
  method SumWithWeights(numeros: array<int>, n: nat, w: int) returns (soma: int)
    requires n <= numeros.Length
    ensures soma == WeightedSum(numeros[..], n, w)
  {
    soma := 0;
    for j := 0 to n
      invariant soma == WeightedSum(numeros[..], j, w)
    {
      soma := soma + (w - j) * numeros[j];
    }
  }

  /** A null or non-string value is rejected. */
  lemma NullRejected()
    ensures !IsValidCpf(None)
  {
  }

  /** Punctuation does not matter: a CPF and its digits alone are judged alike. */
  lemma FormattingInsensitive(text: string)
    ensures IsValidCpf(Some(text)) == IsValidCpf(Some(RemoveNaoNumericos(text)))
  {
    RemoveNaoNumericosIdempotent(text);
  }

  /** More than 11 digits is always rejected, whatever the rest of the text. */
  lemma TooManyDigitsRejected(text: string)
    requires |RemoveNaoNumericos(text)| > 11
    ensures !IsValidCpf(Some(text))
  {
  }

  /** Fewer digits are judged as the 11-digit string padded on the left with '0'. */
  lemma ShortInputIsZeroPadded(text: string)
    requires |RemoveNaoNumericos(text)| <= 11
    ensures IsValidCpf(Some(text)) == IsValidCpf(Some(ZeroPad(RemoveNaoNumericos(text))))
  {
    var digits := RemoveNaoNumericos(text);
    var padded := ZeroPad(digits);
    assert AllDigits(padded);
    RemoveNaoNumericosKeepsDigits(padded);
    assert ZeroPad(padded) == padded;
  }

  /** A text without digits pads to "00000000000" and is rejected. */
  lemma NoDigitsRejected(text: string)
    requires RemoveNaoNumericos(text) == []
    ensures !IsValidCpf(Some(text))
  {
    assert ZeroPad([]) == "00000000000";
  }

  /** Eleven copies of one digit are rejected, even though some of them carry valid check digits. */
  lemma RepeatedDigitRejected(c: char)
    requires IsDigit(c)
    ensures !IsValidCpf(Some(seq(11, _ => c)))
  {
    var s := seq(11, _ => c);
    RemoveNaoNumericosKeepsDigits(s);
    assert ZeroPad(s) == s;
  }

  /** The placeholder is rejected although its check digits are right. */
  lemma BlacklistedRejectedDespiteChecksum()
    ensures CheckDigitsHold(DigitValues(Blacklisted))
    ensures !IsValidCpf(Some(Blacklisted))
  {
    assert DigitValues(Blacklisted) == [1, 2, 3, 4, 5, 6, 7, 8, 9, 0, 9];
    assert WeightedSum([1, 2, 3, 4, 5, 6, 7, 8, 9, 0, 9], 9, 10) == 210;
    assert WeightedSum([1, 2, 3, 4, 5, 6, 7, 8, 9, 0, 9], 10, 11) == 255;
    RemoveNaoNumericosKeepsDigits(Blacklisted);
  }

  /** "11111111111" carries valid check digits: the all-equal rule is what rejects it. */
  lemma RepeatedOnesPassChecksum()
    ensures CheckDigitsHold(DigitValues("11111111111"))
  {
    assert DigitValues("11111111111") == [1, 1, 1, 1, 1, 1, 1, 1, 1, 1, 1];
    assert WeightedSum([1, 1, 1, 1, 1, 1, 1, 1, 1, 1, 1], 9, 10) == 54;
    assert WeightedSum([1, 1, 1, 1, 1, 1, 1, 1, 1, 1, 1], 10, 11) == 65;
  }

  /** "123.456.789-10" is rejected: its weighted sum is 210, so its first check digit should be 0, not 1. */
  lemma ExampleInvalidRejected(text: string)
    requires text == "123.456.789-10"
    ensures !IsValidCpf(Some(text))
  {
    assert text == Masked("123", "456", "789", "10");
    assert AllDigits("123") && AllDigits("456") && AllDigits("789") && AllDigits("10");
    MaskedStripsToDigits("123", "456", "789", "10");
    var cpf := "12345678910";
    assert "123" + "456" + "789" + "10" == cpf;
    assert ZeroPad(cpf) == cpf;
    assert DigitValues(cpf) == [1, 2, 3, 4, 5, 6, 7, 8, 9, 1, 0];
    assert WeightedSum([1, 2, 3, 4, 5, 6, 7, 8, 9, 1, 0], 9, 10) == 210;
  }

  /** An 11-digit string is accepted exactly when it passes the blacklist and carries both check digits. */
  lemma ElevenDigitsAcceptedIff(cpf: string)
    requires |cpf| == 11 && AllDigits(cpf)
    ensures IsValidCpf(Some(cpf)) <==> !AllSame(cpf) && cpf != Blacklisted && CheckDigitsHold(DigitValues(cpf))
  {
    RemoveNaoNumericosKeepsDigits(cpf);
    assert ZeroPad(cpf) == cpf;
  }

  /** "28981056005" is accepted: both check digits (0 and 5) are right. */
  lemma ExampleDigitsAccepted(cpf: string)
    requires cpf == "28981056005"
    ensures IsValidCpf(Some(cpf))
  {
    assert |cpf| == 11 && AllDigits(cpf);
    assert !AllSame(cpf) by { assert cpf[1] != cpf[0]; }
    assert cpf != Blacklisted by { assert cpf[0] != Blacklisted[0]; }
    assert CheckDigitsHold(DigitValues(cpf)) by {
      assert DigitValues(cpf) == [2, 8, 9, 8, 1, 0, 5, 6, 0, 0, 5];
      ExampleCheckDigits(DigitValues(cpf));
    }
    ElevenDigitsAcceptedIff(cpf);
  }

  lemma ExampleCheckDigits(d: seq<int>)
    requires d == [2, 8, 9, 8, 1, 0, 5, 6, 0, 0, 5]
    ensures CheckDigitsHold(d)
  {
    assert WeightedSum([2, 8, 9, 8, 1, 0, 5, 6, 0, 0, 5], 9, 10) == 264;
    assert WeightedSum([2, 8, 9, 8, 1, 0, 5, 6, 0, 0, 5], 10, 11) == 303;
  }

  /** The masked form "289.810.560-05" is accepted too. */
  lemma ExampleMaskedAccepted(text: string)
    requires text == "289.810.560-05"
    ensures IsValidCpf(Some(text))
  {
    assert text == Masked("289", "810", "560", "05");
    assert AllDigits("289") && AllDigits("810") && AllDigits("560") && AllDigits("05");
    MaskedStripsToDigits("289", "810", "560", "05");
    assert "289" + "810" + "560" + "05" == "28981056005";
    FormattingInsensitive(text);
    ExampleDigitsAccepted(RemoveNaoNumericos(text));
  }
}
