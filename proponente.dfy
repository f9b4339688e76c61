/**
 * Model of CasaCorretorAPI/Models/Proponente.cs: the proposer, whose CPF
 * setter keeps only the digits of what it is given, and the errors the
 * annotations on its public properties report.
 */
module ProponenteModel {
  import opened Wrappers
  import opened Annotations
  import opened StringUtil
  import opened NomeCompletoAttribute
  import opened DataNascimentoAttribute
  import opened SeguroModel
  import opened CpfAttribute

  const MensagemNomeObrigatorio := "O nome é um campo obrigatório."
  const MensagemNomeInvalido := "O nome completo não está em um formato válido."
  const MensagemDataObrigatoria := "A data de nascimento é um campo obrigatório."
  const MensagemSeguroObrigatorio := "O seguro é um campo obrigatório."
  const MensagemCpfObrigatorio := "O CPF é um campo obrigatório."
  const MensagemCpfInvalido := "O CPF é inválido."

  /** What the CPF setter stores: a blank value as it is, any other value reduced to its digits. */
  function CpfArmazenado(value: Option<string>): (stored: Option<string>)
    ensures IsNullOrWhiteSpace(value) ==> stored == value
    ensures !IsNullOrWhiteSpace(value) ==> stored == Some(RemoveNaoNumericos(value.value))
  {
    if IsNullOrWhiteSpace(value) then value else Some(RemoveNaoNumericos(value.value))
  }

  class Proponente {
    var nome: Option<string>
    /** The private field _CPF behind the CPF property. */
    var cpf: Option<string>
    var dataNascimento: Option<string>
    var seguro: Option<Seguro>

    /** `new Proponente()`: empty strings and no Seguro. */
    constructor()
      ensures nome == Some("") && cpf == Some("") && dataNascimento == Some("") && seguro.None?
    {
      nome := Some("");
      cpf := Some("");
      dataNascimento := Some("");
      seguro := None;
    }

    /** The CPF getter. */
    function Cpf(): (r: Option<string>)
      reads this
      ensures r == cpf
    {
      cpf
    }

    /** The CPF setter: only _CPF changes. */
    method SetCpf(value: Option<string>)
      modifies this`cpf
      ensures cpf == CpfArmazenado(value)
      ensures nome == old(nome) && dataNascimento == old(dataNascimento) && seguro == old(seguro)
    {
      cpf := value;
      if !IsNullOrWhiteSpace(value) {
        cpf := Some(RemoveNaoNumericos(value.value));
      }
    }

    /**
     * The errors of this proposer, with the CPF annotations applied as
     * intended: none exactly when every rule of the proposer passes.
     */
    function Erros(tryParse: string -> Option<DateOnly>, hoje: DateOnly): (errors: seq<FieldError>)
      reads this
      ensures errors == [] <==>
        && IsValidNome(nome)
        && IsValidCpf(cpf)
        && !IsNullOrWhiteSpace(dataNascimento) && Validate(dataNascimento, tryParse, hoje) == Success
        && seguro.Some?
    {
      ValidateProponenteComCpf(nome, cpf, dataNascimento, seguro, tryParse, hoje)
    }
  }

  /**
   * The annotations of Nome, DataNascimento and Seguro, property by property:
   * [Required] first (null or blank fails), and only if it passes the
   * property's own rule. The CPF property carries no annotation (they sit on
   * the private field), so the CPF rule is not part of this list.
   */
  function ValidateProponente(nome: Option<string>, dataNascimento: Option<string>, seguro: Option<Seguro>,
                              tryParse: string -> Option<DateOnly>, hoje: DateOnly): (errors: seq<FieldError>)
    ensures FieldError(["Nome"], MensagemNomeObrigatorio) in errors <==> IsNullOrWhiteSpace(nome)
    ensures FieldError(["Nome"], MensagemNomeInvalido) in errors <==> !IsNullOrWhiteSpace(nome) && !IsValidNome(nome)
    ensures FieldError(["DataNascimento"], MensagemDataObrigatoria) in errors <==> IsNullOrWhiteSpace(dataNascimento)
    ensures forall m :: FieldError([], m) in errors <==>
      !IsNullOrWhiteSpace(dataNascimento) && Validate(dataNascimento, tryParse, hoje) == Failure(m)
    ensures FieldError(["Seguro"], MensagemSeguroObrigatorio) in errors <==> seguro.None?
    ensures errors == [] <==>
      && IsValidNome(nome)
      && !IsNullOrWhiteSpace(dataNascimento)
      && Validate(dataNascimento, tryParse, hoje) == Success
      && seguro.Some?
  {
    var errosNome :=
      if IsNullOrWhiteSpace(nome) then [FieldError(["Nome"], MensagemNomeObrigatorio)]
      else if !IsValidNome(nome) then [FieldError(["Nome"], MensagemNomeInvalido)]
      else [];
    var errosData :=
      if IsNullOrWhiteSpace(dataNascimento) then [FieldError(["DataNascimento"], MensagemDataObrigatoria)]
      else match Validate(dataNascimento, tryParse, hoje)
           case Success => []
           case Failure(message) => [FieldError([], message)];
    var errosSeguro :=
      if seguro.None? then [FieldError(["Seguro"], MensagemSeguroObrigatorio)] else [];
    errosNome + errosData + errosSeguro
  }

  /** The stored CPF is always null, blank, or digits only. */
  lemma CpfArmazenadoCanonical(value: Option<string>)
    ensures var stored := CpfArmazenado(value);
      stored.None? || AllWhiteSpace(stored.value) || AllDigits(stored.value)
  {
  }

  /** Setting the CPF to what is already stored changes nothing. */
  lemma CpfArmazenadoIdempotent(value: Option<string>)
    ensures CpfArmazenado(CpfArmazenado(value)) == CpfArmazenado(value)
  {
    if !IsNullOrWhiteSpace(value) {
      RemoveNaoNumericosIdempotent(value.value);
    }
  }

  /** A masked CPF and its plain digits are stored alike, as the plain digits. */
  lemma MaskedCpfStored(a: string, b: string, c: string, d: string)
    requires AllDigits(a) && AllDigits(b) && AllDigits(c) && AllDigits(d)
    ensures CpfArmazenado(Some(Masked(a, b, c, d))) == Some(a + b + c + d)
    ensures a + b + c + d != [] ==> CpfArmazenado(Some(a + b + c + d)) == Some(a + b + c + d)
  {
    MaskedStripsToDigits(a, b, c, d);
    var m := Masked(a, b, c, d);
    assert !AllWhiteSpace(m) by { assert m[|a|] == '.'; }
    var plain := a + b + c + d;
    RemoveNaoNumericosKeepsDigits(plain);
    if plain != [] {
      assert !AllWhiteSpace(plain) by { assert IsDigit(plain[0]); }
    }
  }

  /** The formatted and the plain CPF store the same digits. */
  lemma ExampleFormattedCpfStored(formatted: string, plain: string)
    requires formatted == "908.630.180-09" && plain == "90863018009"
    ensures CpfArmazenado(Some(formatted)) == Some(plain) == CpfArmazenado(Some(plain))
  {
    assert formatted == Masked("908", "630", "180", "09");
    assert "908" + "630" + "180" + "09" == plain;
    MaskedCpfStored("908", "630", "180", "09");
  }

  /** A new proposer fails exactly the three required-field checks. */
  lemma EmptyProponenteErrors(tryParse: string -> Option<DateOnly>, hoje: DateOnly)
    ensures ValidateProponente(Some(""), Some(""), None, tryParse, hoje) == [
      FieldError(["Nome"], MensagemNomeObrigatorio),
      FieldError(["DataNascimento"], MensagemDataObrigatoria),
      FieldError(["Seguro"], MensagemSeguroObrigatorio)]
  {
  }

  /**
   * As written, the CPF is never checked: a proposer whose other fields pass
   * has no error whatever its CPF, "123.456.789-10" included.
   */
  lemma InvalidCpfPassesAsWritten(nome: string, cpf: string, dataNascimento: string,
                                  tryParse: string -> Option<DateOnly>, hoje: DateOnly)
    requires nome == "Renato Silva" && cpf == "123.456.789-10"
    requires !AllWhiteSpace(dataNascimento) && Validate(Some(dataNascimento), tryParse, hoje) == Success
    ensures !IsValidCpf(Some(cpf))
    ensures ValidateProponente(Some(nome), Some(dataNascimento), Some(Seguro(150000)), tryParse, hoje) == []
  {
    ExampleInvalidRejected(cpf);
    ExampleFullNameAccepted(nome);
    assert !AllWhiteSpace(nome) by { assert !IsWhiteSpace(nome[0]); }
  }

  /**
   * The errors with the CPF annotations ([Required], then the CPF rule) taken
   * into account on the CPF, as the annotations on _CPF evidently intend.
   */
  function ValidateProponenteComCpf(nome: Option<string>, cpf: Option<string>, dataNascimento: Option<string>,
                                    seguro: Option<Seguro>, tryParse: string -> Option<DateOnly>, hoje: DateOnly)
    : (errors: seq<FieldError>)
    ensures errors == [] <==>
      ValidateProponente(nome, dataNascimento, seguro, tryParse, hoje) == [] && IsValidCpf(cpf)
    ensures FieldError(["CPF"], MensagemCpfObrigatorio) in errors <==> IsNullOrWhiteSpace(cpf)
    ensures FieldError(["CPF"], MensagemCpfInvalido) in errors <==> !IsNullOrWhiteSpace(cpf) && !IsValidCpf(cpf)
  {
    var errosCpf :=
      if IsNullOrWhiteSpace(cpf) then [FieldError(["CPF"], MensagemCpfObrigatorio)]
      else if !IsValidCpf(cpf) then [FieldError(["CPF"], MensagemCpfInvalido)]
      else [];
    assert IsNullOrWhiteSpace(cpf) ==> !IsValidCpf(cpf) by {
      if cpf.Some? && AllWhiteSpace(cpf.value) {
        WhiteSpaceHasNoDigits(cpf.value);
        NoDigitsRejected(cpf.value);
      }
    }
    var others := ValidateProponente(nome, dataNascimento, seguro, tryParse, hoje);
    assert forall e :: e in others ==> e.members != ["CPF"];
    others + errosCpf
  }

  lemma {:induction false} WhiteSpaceHasNoDigits(s: string)
    requires AllWhiteSpace(s)
    ensures RemoveNaoNumericos(s) == []
  {
    if s != [] {
      assert !IsDigit(s[0]);
      WhiteSpaceHasNoDigits(s[1..]);
    }
  }
}
