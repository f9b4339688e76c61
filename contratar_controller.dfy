/**
 * Model of CasaCorretorAPI/Controllers/ContratarController.cs: contracting a
 * proposer. The external authorizer is consulted first; only when it grants
 * authorization is the CPF looked up in the registry, and the proposer is
 * added when the CPF is new. The HTTP exchange itself is a parameter: how it
 * ended (the JSON body of a success response, or an exception).
 */
module ContratarController {
  import opened Wrappers
  import opened ProponenteModel
  import opened Data
  import opened StringUtil

  /** ResponseData (Models/ResponseData.cs). */
  datatype ResponseData = ResponseData(authorization: bool)

  /** ApiResponse (Models/APIResponse.cs). */
  datatype ApiResponse = ApiResponse(status: string, message: string, data: ResponseData)

  /** The members present in the authorizer's JSON answer (None: absent). */
  datatype DataJson = DataJson(authorization: Option<bool>)
  datatype ApiResponseJson = ApiResponseJson(status: Option<string>, message: Option<string>, data: Option<DataJson>)

  /** How the call to the authorizer ended. */
  datatype Chamada =
    | Respondeu(json: ApiResponseJson)  // a success status with a JSON body
    | Falhou(excecao: string)           // network error, timeout, error status or malformed JSON

  /**
   * JsonSerializer.Deserialize<ApiResponse>: members absent from the JSON keep
   * their initial values, so a missing `data` or `authorization` reads as false.
   */
  function Deserialize(json: ApiResponseJson): (r: ApiResponse)
    ensures r.data.authorization <==> json.data == Some(DataJson(Some(true)))
    ensures json.status.None? ==> r.status == ""
    ensures json.message.None? ==> r.message == ""
  {
    ApiResponse(
      if json.status.Some? then json.status.value else "",
      if json.message.Some? then json.message.value else "",
      ResponseData(json.data.Some? && json.data.value.authorization == Some(true)))
  }

  /**
   * AutorizadorExterno: fail-closed. Authorization is granted only by an
   * answer whose data says authorization is true; any exception becomes a
   * "fail" response carrying the exception's message and no authorization.
   */
  function AutorizadorExterno(chamada: Chamada): (r: ApiResponse)
    ensures r.data.authorization <==> chamada.Respondeu? && chamada.json.data == Some(DataJson(Some(true)))
    ensures chamada.Falhou? ==> r == ApiResponse("fail", chamada.excecao, ResponseData(false))
  {
    match chamada
    case Respondeu(json) => Deserialize(json)
    case Falhou(excecao) => ApiResponse("fail", excecao, ResponseData(false))
  }

  const MensagemContratado := "Contrato realizado."
  const MensagemNaoAutorizado := "Não foi possível finalizar a contratação."

  /** C# string interpolation writes null as the empty string. */
  function Interpolated(value: Option<string>): string {
    if value.Some? then value.value else ""
  }

  const PrefixoConflito := "O CPF '"
  const SufixoConflito := "' já contratou um seguro anteriormente."

  /** The conflict message: the CPF, as interpolated, quoted between a fixed prefix and suffix. */
  function MensagemConflito(cpf: Option<string>): (m: string)
    ensures |m| == |PrefixoConflito| + |Interpolated(cpf)| + |SufixoConflito|
    ensures m[..|PrefixoConflito|] == PrefixoConflito
    ensures m[|PrefixoConflito|..|PrefixoConflito| + |Interpolated(cpf)|] == Interpolated(cpf)
    ensures m[|PrefixoConflito| + |Interpolated(cpf)|..] == SufixoConflito
  {
    PrefixoConflito + Interpolated(cpf) + SufixoConflito
  }

  /** The conflict message tells which CPF it is about: different CPFs give different messages. */
  lemma MensagemConflitoInjective(a: string, b: string)
    requires MensagemConflito(Some(a)) == MensagemConflito(Some(b))
    ensures a == b
  {
    var m := MensagemConflito(Some(a));
    assert |a| == |b|;
    assert a == m[|PrefixoConflito|..|PrefixoConflito| + |a|] == b;
  }

  /** The IActionResult of PostContratar. */
  datatype Resultado =
    | Ok(mensagem: string, proponente: Proponente)  // 200
    | Conflict(mensagem: string)                    // 409
    | Unauthorized(mensagem: string)                // 401

  datatype Decisao = Contratado | CpfDuplicado | NaoAutorizado

  /** The decision: authorization first, then the duplicate check. */
  function Decide(autorizado: bool, cpfs: seq<Option<string>>, cpf: Option<string>): (d: Decisao)
    ensures d == NaoAutorizado <==> !autorizado
    ensures d == CpfDuplicado <==> autorizado && cpf in cpfs
    ensures d == Contratado <==> autorizado && cpf !in cpfs
  {
    if !autorizado then NaoAutorizado
    else if cpf in cpfs then CpfDuplicado
    else Contratado
  }

  /** The registry's CPFs after one request. */
  function Registra(cpfs: seq<Option<string>>, cpf: Option<string>, autorizado: bool): seq<Option<string>> {
    if Decide(autorizado, cpfs, cpf) == Contratado then cpfs + [cpf] else cpfs
  }

  /** One request keeps the CPFs distinct, and only ever appends. */
  lemma RegistraKeepsDistinct(cpfs: seq<Option<string>>, cpf: Option<string>, autorizado: bool)
    requires Distinct(cpfs)
    ensures Distinct(Registra(cpfs, cpf, autorizado))
    ensures cpfs <= Registra(cpfs, cpf, autorizado)
  {
  }

  /** PostContratar. */
  method PostContratar(bd: BD, proponente: Proponente, chamada: Chamada) returns (r: Resultado)
    modifies bd`proponentes
    ensures var autorizado := AutorizadorExterno(chamada).data.authorization;
      match Decide(autorizado, old(bd.Cpfs()), proponente.cpf)
      case Contratado =>
        r == Ok(MensagemContratado, proponente) && bd.proponentes == old(bd.proponentes) + [proponente]
      case CpfDuplicado =>
        r == Conflict(MensagemConflito(proponente.cpf)) && bd.proponentes == old(bd.proponentes)
      case NaoAutorizado =>
        r == Unauthorized(MensagemNaoAutorizado) && bd.proponentes == old(bd.proponentes)
    ensures old(bd.proponentes) <= bd.proponentes
    ensures bd.Cpfs() == Registra(old(bd.Cpfs()), proponente.cpf, AutorizadorExterno(chamada).data.authorization)
    ensures old(bd.Valid()) ==> bd.Valid()
  {
    var autorizador := AutorizadorExterno(chamada);
    if autorizador.data.authorization {
      if !(exists i :: 0 <= i < |bd.proponentes| && bd.proponentes[i].cpf == proponente.cpf) {
        bd.proponentes := bd.proponentes + [proponente];
        r := Ok(MensagemContratado, proponente);
      } else {
        r := Conflict(MensagemConflito(proponente.cpf));
      }
    } else {
      r := Unauthorized(MensagemNaoAutorizado);
    }
  }

  /** A request as the decision sees it: the proposer's CPF and the authorizer's verdict. */
  datatype Pedido = Pedido(cpf: Option<string>, autorizado: bool)

  /** The decisions taken for requests handled one after the other. */
  function Decisoes(cpfs: seq<Option<string>>, pedidos: seq<Pedido>): (ds: seq<Decisao>)
    ensures |ds| == |pedidos|
    decreases |pedidos|
  {
    if pedidos == [] then []
    else
      var p := pedidos[0];
      [Decide(p.autorizado, cpfs, p.cpf)] + Decisoes(Registra(cpfs, p.cpf, p.autorizado), pedidos[1..])
  }

  /** The registry's CPFs after requests handled one after the other. */
  function RegistroFinal(cpfs: seq<Option<string>>, pedidos: seq<Pedido>): seq<Option<string>>
    decreases |pedidos|
  {
    if pedidos == [] then cpfs
    else RegistroFinal(Registra(cpfs, pedidos[0].cpf, pedidos[0].autorizado), pedidos[1..])
  }

  function CountContratados(ds: seq<Decisao>): nat {
    if ds == [] then 0 else (if ds[0] == Contratado then 1 else 0) + CountContratados(ds[1..])
  }

  /** Handled in sequence, requests keep the registry free of duplicates and only append to it. */
  lemma {:induction false} SequentialRequestsKeepDistinct(cpfs: seq<Option<string>>, pedidos: seq<Pedido>)
    requires Distinct(cpfs)
    ensures Distinct(RegistroFinal(cpfs, pedidos))
    ensures cpfs <= RegistroFinal(cpfs, pedidos)
    decreases |pedidos|
  {
    if pedidos != [] {
      var next := Registra(cpfs, pedidos[0].cpf, pedidos[0].autorizado);
      RegistraKeepsDistinct(cpfs, pedidos[0].cpf, pedidos[0].autorizado);
      SequentialRequestsKeepDistinct(next, pedidos[1..]);
    }
  }

  /** Once a CPF is registered, no later request with it is contracted, whatever the other requests are. */
  lemma {:induction false} RegisteredCpfNeverContractedAgain(cpfs: seq<Option<string>>, pedidos: seq<Pedido>, cpf: Option<string>)
    requires cpf in cpfs
    ensures forall k :: 0 <= k < |pedidos| && pedidos[k].cpf == cpf ==> Decisoes(cpfs, pedidos)[k] != Contratado
    decreases |pedidos|
  {
    if pedidos != [] {
      var next := Registra(cpfs, pedidos[0].cpf, pedidos[0].autorizado);
      assert cpfs <= next;
      RegisteredCpfNeverContractedAgain(next, pedidos[1..], cpf);
      var ds := Decisoes(cpfs, pedidos);
      assert ds == [Decide(pedidos[0].autorizado, cpfs, pedidos[0].cpf)] + Decisoes(next, pedidos[1..]);
      forall k | 0 <= k < |pedidos| && pedidos[k].cpf == cpf
        ensures ds[k] != Contratado
      {
        if k > 0 {
          assert pedidos[1..][k - 1] == pedidos[k];
          assert ds[k] == Decisoes(next, pedidos[1..])[k - 1];
        }
      }
    }
  }

  /** Decisions none of which is a contract count zero contracts. */
  lemma {:induction false} NoneContracted(ds: seq<Decisao>)
    requires forall k :: 0 <= k < |ds| ==> ds[k] != Contratado
    ensures CountContratados(ds) == 0
  {
    if ds != [] {
      NoneContracted(ds[1..]);
    }
  }

  /**
   * Requests sharing one new CPF, handled in sequence: exactly one is
   * contracted when any of them is authorized, none otherwise.
   */
  lemma {:induction false} SameCpfContractedOnce(cpfs: seq<Option<string>>, pedidos: seq<Pedido>, cpf: Option<string>)
    requires cpf !in cpfs
    requires forall k :: 0 <= k < |pedidos| ==> pedidos[k].cpf == cpf
    ensures CountContratados(Decisoes(cpfs, pedidos)) ==
      if exists k :: 0 <= k < |pedidos| && pedidos[k].autorizado then 1 else 0
    decreases |pedidos|
  {
    if pedidos != [] {
      var next := Registra(cpfs, cpf, pedidos[0].autorizado);
      if pedidos[0].autorizado {
        assert cpf in next;
        RegisteredCpfNeverContractedAgain(next, pedidos[1..], cpf);
        NoneContracted(Decisoes(next, pedidos[1..]));
      } else {
        assert next == cpfs;
        SameCpfContractedOnce(next, pedidos[1..], cpf);
        assert (exists k :: 0 <= k < |pedidos| && pedidos[k].autorizado)
           <==> (exists k :: 0 <= k < |pedidos[1..]| && pedidos[1..][k].autorizado) by {
          if exists k :: 0 <= k < |pedidos| && pedidos[k].autorizado {
            var k :| 0 <= k < |pedidos| && pedidos[k].autorizado;
            assert k > 0 && pedidos[1..][k - 1].autorizado;
          }
        }
      }
    }
  }

  /**
   * Two proposers with the same CPF posted one after the other to an empty
   * registry, with authorization: the first is contracted, the second gets
   * the conflict naming the stored CPF, and the registry holds one proposer.
   */
  method ContractTwice(cpf: Option<string>, chamada: Chamada) returns (primeiro: Resultado, segundo: Resultado, cadastrados: nat)
    requires AutorizadorExterno(chamada).data.authorization
    ensures primeiro.Ok? && primeiro.mensagem == MensagemContratado
    ensures segundo == Conflict(MensagemConflito(CpfArmazenado(cpf)))
    ensures cadastrados == 1
  {
    var bd := new BD();
    var p1 := new Proponente();
    p1.SetCpf(cpf);
    primeiro := PostContratar(bd, p1, chamada);
    assert bd.proponentes == [p1];

    var p2 := new Proponente();
    p2.SetCpf(cpf);
    assert bd.Cpfs() == [CpfArmazenado(cpf)];
    segundo := PostContratar(bd, p2, chamada);
    cadastrados := |bd.proponentes|;
  }

  /**
   * The duplicate-CPF test: "289.810.560-05" posted twice with authorization
   * is contracted once, and the second post gets the conflict naming "28981056005".
   */
  method ExampleContractTwice() returns (primeiro: Resultado, segundo: Resultado, cadastrados: nat)
    ensures primeiro.Ok? && primeiro.mensagem == MensagemContratado
    ensures segundo == Conflict(MensagemConflito(Some("28981056005")))
    ensures cadastrados == 1
  {
    var chamada := Respondeu(ApiResponseJson(Some("ok"), Some("Authorized"), Some(DataJson(Some(true)))));
    assert "289.810.560-05" == Masked("289", "810", "560", "05");
    assert "289" + "810" + "560" + "05" == "28981056005";
    MaskedCpfStored("289", "810", "560", "05");
    primeiro, segundo, cadastrados := ContractTwice(Some("289.810.560-05"), chamada);
  }

  /** The unauthorized test: an answer refusing authorization leaves the registry empty. */
  method ExampleUnauthorized() returns (r: Resultado, cadastrados: nat)
    ensures r == Unauthorized(MensagemNaoAutorizado) && cadastrados == 0
  {
    var bd := new BD();
    var p := new Proponente();
    p.SetCpf(Some("908.630.180-09"));
    var chamada := Respondeu(ApiResponseJson(Some("fail"), Some("Unauthorized"), Some(DataJson(Some(false)))));
    r := PostContratar(bd, p, chamada);
    cadastrados := |bd.proponentes|;
  }
}
