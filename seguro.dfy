/**
 * Model of CasaCorretorAPI/Models/Seguro.cs: the insurance requested, whose
 * coverage must lie in the inclusive range [100000, int.MaxValue].
 */
module SeguroModel {
  import opened Annotations

  const CoberturaMinima := 100000
  const IntMaxValue := 2147483647
  const MensagemCobertura := "A cobertura tem que ser maior que R$ 100.000,00"

  /** A Seguro with its coverage in whole reais. */
  datatype Seguro = Seguro(cobertura: int)

  /** `new Seguro()`: the coverage starts at 0. */
  const SeguroPadrao := Seguro(0)

  /**
   * The errors of the Seguro's own annotations: [Required] never fails on a
   * number, so only the range can, and it reports on member "Cobertura".
   */
  function ValidateSeguro(s: Seguro): (errors: seq<FieldError>)
    ensures errors == [] <==> 100000 <= s.cobertura <= 2147483647
    ensures errors != [] ==> errors == [FieldError(["Cobertura"], MensagemCobertura)]
  {
    if CoberturaMinima <= s.cobertura <= IntMaxValue then []
    else [FieldError(["Cobertura"], MensagemCobertura)]
  }

  /** The bounds are inclusive; 90000 and the default coverage 0 fail with the range message. */
  lemma CoberturaBoundaries()
    ensures ValidateSeguro(Seguro(100000)) == []
    ensures ValidateSeguro(Seguro(2147483647)) == []
    ensures ValidateSeguro(Seguro(99999)) != []
    ensures ValidateSeguro(Seguro(2147483648)) != []
    ensures ValidateSeguro(Seguro(90000)) == [FieldError(["Cobertura"], MensagemCobertura)]
    ensures ValidateSeguro(SeguroPadrao) == [FieldError(["Cobertura"], MensagemCobertura)]
  {
  }
}
