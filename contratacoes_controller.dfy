/**
 * Model of CasaCorretorAPI/Controllers/ContratacoesController.cs: listing
 * the contracted proposers, with a message that depends on how many there are.
 */
module ContratacoesController {
  import opened Wrappers
  import opened ProponenteModel
  import opened Data

  /** The OkObjectResult: status 200, the message, and the list when there is one. */
  datatype Listagem = Listagem(statusCode: int, mensagem: string, proponentes: Option<seq<Proponente>>)

  function DigitChar(d: nat): char
    requires d < 10
  {
    ('0' as int + d) as char
  }

  /** The decimal text of a count, as string interpolation writes it. */
  function NatToString(n: nat): (s: string)
    ensures 1 <= |s| && (n >= 10 ==> |s| >= 2)
  {
    if n < 10 then [DigitChar(n)] else NatToString(n / 10) + [DigitChar(n % 10)]
  }

  const MensagemNenhum := "Não existem proponentes cadastrados."
  const SufixoSingular := " proponente cadastrado."
  const SufixoPlural := " proponentes cadastrados."

  /** The message for a registry of n proposers. */
  function MensagemContagem(n: nat): string {
    if n == 1 then "Temos " + NatToString(n) + SufixoSingular
    else if n > 1 then "Temos " + NatToString(n) + SufixoPlural
    else MensagemNenhum
  }

  /** GetContratacoes: always 200, read-only, the list only when the registry is not empty. */
  function GetContratacoes(bd: BD): (r: Listagem)
    reads bd
    ensures r.statusCode == 200
    ensures r.proponentes.Some? <==> |bd.proponentes| > 0
    ensures r.proponentes.Some? ==> r.proponentes.value == bd.proponentes
    ensures r.mensagem == MensagemContagem(|bd.proponentes|)
  {
    if |bd.proponentes| == 1 then
      Listagem(200, "Temos " + NatToString(|bd.proponentes|) + SufixoSingular, Some(bd.proponentes))
    else if |bd.proponentes| > 1 then
      Listagem(200, "Temos " + NatToString(|bd.proponentes|) + SufixoPlural, Some(bd.proponentes))
    else
      Listagem(200, MensagemNenhum, None)
  }

  /** Different counts are written differently. */
  lemma {:induction false} NatToStringInjective(m: nat, n: nat)
    requires NatToString(m) == NatToString(n)
    ensures m == n
  {
    var s := NatToString(m);
    if m >= 10 && n >= 10 {
      assert s[..|s| - 1] == NatToString(m / 10) && s[..|s| - 1] == NatToString(n / 10);
      NatToStringInjective(m / 10, n / 10);
      assert s[|s| - 1] == DigitChar(m % 10) == DigitChar(n % 10);
    }
  }

  /** The message tells the count: different counts give different messages. */
  lemma MensagemContagemInjective(m: nat, n: nat)
    requires MensagemContagem(m) == MensagemContagem(n)
    ensures m == n
  {
    var a, b := MensagemContagem(m), MensagemContagem(n);
    if m == 0 || n == 0 {
      assert a[0] == b[0];
    } else if m == 1 || n == 1 {
      assert |a| == |b|;
      assert |NatToString(1)| == 1;
    } else {
      assert |NatToString(m)| == |NatToString(n)|;
      assert a[6..6 + |NatToString(m)|] == NatToString(m);
      assert b[6..6 + |NatToString(n)|] == NatToString(n);
      NatToStringInjective(m, n);
    }
  }

  /** The singular phrasing for one proposer. */
  lemma ExampleSingular(m: string)
    requires m == "Temos 1 proponente cadastrado."
    ensures MensagemContagem(1) == m
  {
    assert NatToString(1) == "1";
    assert "Temos " + "1" + SufixoSingular == m;
  }

  /** The plural phrasing for two proposers. */
  lemma ExamplePlural(m: string)
    requires m == "Temos 2 proponentes cadastrados."
    ensures MensagemContagem(2) == m
  {
    assert NatToString(2) == "2";
    assert "Temos " + "2" + SufixoPlural == m;
  }
}
