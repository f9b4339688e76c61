/**
 * Model of CasaCorretorAPI/Utils/StringUtil.cs: the digit filter used by the
 * CPF validator and by the CPF property setter of a proposer.
 */
module StringUtil {

  predicate IsDigit(c: char) {
    '0' <= c <= '9'
  }

  predicate AllDigits(s: string) {
    forall i :: 0 <= i < |s| ==> IsDigit(s[i])
  }

  /** Replacing every match of the pattern [^0-9] by the empty string. */
  function RemoveNaoNumericos(text: string): (r: string)
    ensures AllDigits(r)
    ensures |r| <= |text|
  {
    if text == [] then []
    else (if IsDigit(text[0]) then [text[0]] else []) + RemoveNaoNumericos(text[1..])
  }

  /** `sub` can be obtained from `s` by deleting characters. */
  predicate IsSubsequence(sub: string, s: string)
    decreases |s|
  {
    sub == [] ||
    (s != [] && ((sub[0] == s[0] && IsSubsequence(sub[1..], s[1..])) || IsSubsequence(sub, s[1..])))
  }

  /** The filter distributes over concatenation. */
  lemma {:induction false} RemoveNaoNumericosConcat(a: string, b: string)
    ensures RemoveNaoNumericos(a + b) == RemoveNaoNumericos(a) + RemoveNaoNumericos(b)
  {
    if a != [] {
      assert (a + b)[0] == a[0];
      assert (a + b)[1..] == a[1..] + b;
      RemoveNaoNumericosConcat(a[1..], b);
    } else {
      assert a + b == b;
    }
  }

  /** A string made only of digits is returned unchanged. */
  lemma {:induction false} RemoveNaoNumericosKeepsDigits(s: string)
    requires AllDigits(s)
    ensures RemoveNaoNumericos(s) == s
  {
    if s != [] {
      RemoveNaoNumericosKeepsDigits(s[1..]);
      assert [s[0]] + s[1..] == s;
    }
  }

  /** Applying the filter to its own output changes nothing. */
  lemma RemoveNaoNumericosIdempotent(s: string)
    ensures RemoveNaoNumericos(RemoveNaoNumericos(s)) == RemoveNaoNumericos(s)
  {
    RemoveNaoNumericosKeepsDigits(RemoveNaoNumericos(s));
  }

  /**
   * The result is exactly the digits of the input, in their original order:
   * it is a subsequence of the input, and every digit occurs in it as often
   * as in the input while no other character occurs in it at all.
   */
  lemma {:induction false} RemoveNaoNumericosIsDigitSubsequence(s: string)
    ensures IsSubsequence(RemoveNaoNumericos(s), s)
    ensures forall c :: multiset(RemoveNaoNumericos(s))[c] == if IsDigit(c) then multiset(s)[c] else 0
  {
    if s != [] {
      var rest := RemoveNaoNumericos(s[1..]);
      RemoveNaoNumericosIsDigitSubsequence(s[1..]);
      assert s == [s[0]] + s[1..];
      if IsDigit(s[0]) {
        assert RemoveNaoNumericos(s) == [s[0]] + rest;
        assert RemoveNaoNumericos(s)[1..] == rest;
      } else {
        assert RemoveNaoNumericos(s) == rest;
      }
    }
  }

  /** A CPF written with the usual mask NNN.NNN.NNN-NN. */
  function Masked(a: string, b: string, c: string, d: string): string {
    a + "." + b + "." + c + "-" + d
  }

  /** The mask's punctuation is dropped and its digits kept in order. */
  lemma {:induction false} MaskedStripsToDigits(a: string, b: string, c: string, d: string)
    requires AllDigits(a) && AllDigits(b) && AllDigits(c) && AllDigits(d)
    ensures RemoveNaoNumericos(Masked(a, b, c, d)) == a + b + c + d
  {
    assert RemoveNaoNumericos(".") == [] by { assert "."[1..] == []; }
    assert RemoveNaoNumericos("-") == [] by { assert "-"[1..] == []; }
    RemoveNaoNumericosKeepsDigits(a);
    RemoveNaoNumericosKeepsDigits(b);
    RemoveNaoNumericosKeepsDigits(c);
    RemoveNaoNumericosKeepsDigits(d);
    RemoveNaoNumericosConcat(a, ".");
    RemoveNaoNumericosConcat(a + ".", b);
    RemoveNaoNumericosConcat(a + "." + b, ".");
    RemoveNaoNumericosConcat(a + "." + b + ".", c);
    RemoveNaoNumericosConcat(a + "." + b + "." + c, "-");
    RemoveNaoNumericosConcat(a + "." + b + "." + c + "-", d);
  }
}
