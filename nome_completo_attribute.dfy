/**
 * Model of CasaCorretorAPI/Validations/NomeCompletoAttribute.cs: a full name
 * is at least two space-separated parts, each made of two or more letters
 * (A-Z, a-z, U+00C0..U+00FF), apostrophes or hyphens.
 */
module NomeCompletoAttribute {
  import opened Wrappers
  import opened Annotations

  /** The character class [A-Za-zÀ-ÿ'-]. */
  predicate IsNameChar(c: char) {
    || ('A' <= c <= 'Z') || ('a' <= c <= 'z') || ('\U{00C0}' <= c <= '\U{00FF}')
    || c == '\'' || c == '-'
  }

  /** A part matches ^[A-Za-zÀ-ÿ'-]{2,}$. */
  predicate IsNamePart(part: string) {
    |part| >= 2 && forall i :: 0 <= i < |part| ==> IsNameChar(part[i])
  }

  /** nome.Trim().Split(' ', StringSplitOptions.RemoveEmptyEntries) */
  function Partes(nome: string): seq<string> {
    Split(Trim(nome))
  }

  /**
   * NomeCompletoAttribute.IsValid: null, non-string and blank values are
   * rejected; an accepted name has a space between words once trimmed.
   */
  function IsValidNome(value: Option<string>): (ok: bool)
    ensures ok ==> value.Some? && ' ' in Trim(value.value)
  {
    match value
    case None => false
    case Some(nome) =>
      SplitWithoutSpace(Trim(nome), []);
      && !IsNullOrWhiteSpace(value)
      && var partes := Partes(nome);
         |partes| >= 2 && forall i :: 0 <= i < |partes| ==> IsNamePart(partes[i])
  }

  /** A blank name is rejected; it has no parts, so the part count alone would reject it too. */
  lemma {:induction false} BlankNameRejected(nome: string)
    requires IsNullOrWhiteSpace(Some(nome))
    ensures Partes(nome) == [] && !IsValidNome(Some(nome))
  {
    TrimStartOfWhiteSpace(nome);
  }

  /** A null or non-string value is rejected. */
  lemma NullRejected()
    ensures !IsValidNome(None)
  {
  }

  /** A name with fewer than two parts is rejected. */
  lemma FewerThanTwoPartsRejected(nome: string)
    requires |Partes(nome)| < 2
    ensures !IsValidNome(Some(nome))
  {
  }

  /** White space added at the start does not change the verdict. */
  lemma LeadingWhiteSpaceIgnored(ws: char, nome: string)
    requires IsWhiteSpace(ws)
    ensures IsValidNome(Some([ws] + nome)) == IsValidNome(Some(nome))
  {
    assert ([ws] + nome)[1..] == nome;
    assert Trim([ws] + nome) == Trim(nome);
    assert AllWhiteSpace([ws] + nome) <==> AllWhiteSpace(nome) by {
      if AllWhiteSpace(nome) {
        forall i | 0 <= i < |[ws] + nome| ensures IsWhiteSpace(([ws] + nome)[i]) {
          if i > 0 { assert ([ws] + nome)[i] == nome[i - 1]; }
        }
      }
    }
  }

  /** White space added at the end does not change the verdict. */
  lemma TrailingWhiteSpaceIgnored(nome: string, ws: char)
    requires IsWhiteSpace(ws)
    ensures IsValidNome(Some(nome + [ws])) == IsValidNome(Some(nome))
  {
    assert AllWhiteSpace([ws]);
    if AllWhiteSpace(nome) {
      TrimStartOfWhiteSpacePrefix(nome, [ws]);
      TrimStartOfWhiteSpace(nome);
      assert [ws][1..] == [] && TrimStart([ws]) == [];
      assert Trim(nome + [ws]) == Trim(nome);
    } else {
      TrimStartOfTextPrefix(nome, [ws]);
      TrimEndOfWhiteSpaceSuffix(TrimStart(nome), [ws]);
      assert Trim(nome + [ws]) == Trim(nome);
    }
    assert AllWhiteSpace(nome + [ws]) <==> AllWhiteSpace(nome) by {
      if AllWhiteSpace(nome + [ws]) {
        forall i | 0 <= i < |nome| ensures IsWhiteSpace(nome[i]) {
          assert (nome + [ws])[i] == nome[i];
        }
      }
    }
  }

  /** Two spaces between parts are read as one. */
  lemma ExtraInnerSpaceIgnored(a: string, b: string)
    ensures IsValidNome(Some(a + " " + b)) == IsValidNome(Some(a + "  " + b))
  {
    PartesDoubleSpace(a, b);
    WhiteSpaceAround(a, " ", b);
    WhiteSpaceAround(a, "  ", b);
  }

  /** The parts do not change when a space between two pieces is doubled. */
  lemma PartesDoubleSpace(a: string, b: string)
    ensures Partes(a + " " + b) == Partes(a + "  " + b)
  {
    var one, two := a + " " + b, a + "  " + b;
    if AllWhiteSpace(a) {
      TrimStartOfWhiteSpacePrefix(a + " ", b);
      TrimStartOfWhiteSpacePrefix(a + "  ", b);
      assert Trim(one) == Trim(two);
    } else {
      assert one == a + (" " + b) && two == a + ("  " + b);
      TrimStartOfTextPrefix(a, " " + b);
      TrimStartOfTextPrefix(a, "  " + b);
      var a' := TrimStart(a);
      if AllWhiteSpace(b) {
        assert AllWhiteSpace(" " + b) && AllWhiteSpace("  " + b);
        TrimEndOfWhiteSpaceSuffix(a', " " + b);
        TrimEndOfWhiteSpaceSuffix(a', "  " + b);
        assert Trim(one) == Trim(two);
      } else {
        assert a' + (" " + b) == (a' + " ") + b;
        assert a' + ("  " + b) == (a' + "  ") + b;
        TrimEndOfTextSuffix(a' + " ", b);
        TrimEndOfTextSuffix(a' + "  ", b);
        SplitDoubleSpace(a', TrimEnd(b), []);
        assert a' + " " + TrimEnd(b) == a' + [' '] + TrimEnd(b);
        assert a' + "  " + TrimEnd(b) == a' + [' ', ' '] + TrimEnd(b);
      }
    }
  }

  /** Text around white space is all white space exactly when both sides are. */
  lemma WhiteSpaceAround(a: string, sep: string, b: string)
    requires AllWhiteSpace(sep)
    ensures AllWhiteSpace(a + sep + b) <==> AllWhiteSpace(a) && AllWhiteSpace(b)
  {
    var t := a + sep + b;
    assert forall i :: 0 <= i < |a| ==> t[i] == a[i];
    assert forall i :: 0 <= i < |b| ==> t[|a| + |sep| + i] == b[i];
  }

  /** Two words without white space, joined by one space, are the two parts of the name. */
  lemma {:induction false} PartesOfTwoWords(a: string, b: string)
    requires a != [] && b != []
    requires forall i :: 0 <= i < |a| ==> !IsWhiteSpace(a[i])
    requires forall i :: 0 <= i < |b| ==> !IsWhiteSpace(b[i])
    ensures Partes(a + " " + b) == [a, b]
  {
    var s := a + " " + b;
    assert s[0] == a[0] && s[|s| - 1] == b[|b| - 1];
    assert TrimStart(s) == s;
    assert TrimEnd(s) == s;
    assert IsWhiteSpace(' ');
    assert ' ' !in a && ' ' !in b;
    assert s == a + (" " + b);
    SplitFromWord(a, " " + b, []);
    assert [] + a == a;
    assert (" " + b)[0] == ' ' && (" " + b)[1..] == b;
    assert SplitFrom(" " + b, a) == [a] + SplitFrom(b, []);
    SplitFromWord(b, [], []);
    assert b + [] == b && [] + b == b;
  }

  /** Two valid parts joined by one space make a valid full name. */
  lemma TwoPartNameAccepted(a: string, b: string)
    requires IsNamePart(a) && IsNamePart(b)
    ensures IsValidNome(Some(a + " " + b))
  {
    PartesOfTwoWords(a, b);
    var s := a + " " + b;
    assert !AllWhiteSpace(s) by { assert s[0] == a[0]; }
  }

  /** "Fabio S" is rejected: the part "S" has a single letter. */
  lemma ExampleSingleLetterPartRejected(nome: string)
    requires nome == "Fabio S"
    ensures !IsValidNome(Some(nome))
  {
    assert nome == "Fabio" + " " + "S";
    PartesOfTwoWords("Fabio", "S");
    assert !IsNamePart(Partes(nome)[1]);
  }

  /** "Renato Silva" is accepted. */
  lemma ExampleFullNameAccepted(nome: string)
    requires nome == "Renato Silva"
    ensures IsValidNome(Some(nome))
  {
    assert nome == "Renato" + " " + "Silva";
    TwoPartNameAccepted("Renato", "Silva");
  }
}
