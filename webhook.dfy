/**
 * The AbacatePay webhook endpoint: it checks the shared secret, keeps only
 * `billing.paid` events, and routes the charge's external reference,
 * `"ag-<id>"` to the booking confirmation and `"sub-<id>"` to the
 * subscription payment.
 */
module WebhookAbacatePay {
  import opened Wrappers
  import opened Tempo
  import opened Texto
  import opened Numeros
  import opened AbacatePay
  import Dominio
  import AgendamentoServico
  import AssinaturaServico
  import Financeiro

  const EVENT_BILLING_PAID: string := "billing.paid"

  datatype ProdutoWebhook = ProdutoWebhook(externalId: Option<string>)
  datatype Billing = Billing(id: Option<string>, status: Option<string>, products: Option<seq<ProdutoWebhook>>)
  datatype DadosWebhook = DadosWebhook(billing: Option<Billing>)
  datatype Payload = Payload(id: Option<string>, event: Option<string>, data: Option<DadosWebhook>)

  /** What the endpoint does with a call. */
  datatype Rota =
    | CorpoAusente                       // 400
    | NaoAutorizado                      // 401
    | EventoIgnorado                     // 200, nothing done
    | SemExternalId                      // 200, nothing done
    | ConfirmarAgendamento(agendamentoId: int)
    | ProcessarAssinatura(assinaturaId: int, billingId: Option<string>)
    | ExternalIdDesconhecido             // 200, nothing done
    | ExternalIdInvalido                 // 200, nothing done

  /** The external reference of the charge's first product, when every step down to it is present. */
  function ExternalId(p: Payload): (r: Option<string>)
    ensures r.Some? ==> p.data.Some? && p.data.value.billing.Some? && p.data.value.billing.value.products.Some?
                        && |p.data.value.billing.value.products.value| > 0
                        && p.data.value.billing.value.products.value[0].externalId == r
  {
    if p.data.Some? && p.data.value.billing.Some? && p.data.value.billing.value.products.Some?
       && |p.data.value.billing.value.products.value| > 0
    then p.data.value.billing.value.products.value[0].externalId
    else None
  }

  /** A configured, non-blank secret must be matched exactly by the query parameter. */
  predicate Autorizado(configurado: Option<string>, informado: Option<string>)
  {
    configurado.None? || IsBlank(configurado.value) || informado == configurado
  }

  /** `handleWebhook` and `processBillingPaid` as a decision. */
  function Rotear(configurado: Option<string>, informado: Option<string>, payload: Option<Payload>): (r: Rota)
    ensures payload.None? <==> r == CorpoAusente
    ensures r == NaoAutorizado <==> payload.Some? && !Autorizado(configurado, informado)
    ensures r.ConfirmarAgendamento? || r.ProcessarAssinatura? ==>
      payload.Some? && Autorizado(configurado, informado) && payload.value.event == Some(EVENT_BILLING_PAID)
      && ExternalId(payload.value).Some?
    ensures r.ConfirmarAgendamento? ==>
      StartsWith(ExternalId(payload.value).value, "ag-") && ParseLong(ExternalId(payload.value).value[3..]) == Some(r.agendamentoId)
    ensures r.ProcessarAssinatura? ==>
      StartsWith(ExternalId(payload.value).value, "sub-") && ParseLong(ExternalId(payload.value).value[4..]) == Some(r.assinaturaId)
      && r.billingId == payload.value.data.value.billing.value.id
  {
    if payload.None? then CorpoAusente
    else if !Autorizado(configurado, informado) then NaoAutorizado
    else if payload.value.event != Some(EVENT_BILLING_PAID) then EventoIgnorado
    else
      match ExternalId(payload.value)
      case None => SemExternalId
      case Some(e) =>
        if StartsWith(e, "ag-") then
          match ParseLong(e[3..])
          case None => ExternalIdInvalido
          case Some(n) => ConfirmarAgendamento(n)
        else if StartsWith(e, "sub-") then
          match ParseLong(e[4..])
          case None => ExternalIdInvalido
          case Some(n) => ProcessarAssinatura(n, payload.value.data.value.billing.value.id)
        else ExternalIdDesconhecido
  }

  /** A paid event for a product with `ref` as external reference, from an authorized caller. */
  predicate PagoCom(configurado: Option<string>, informado: Option<string>, payload: Payload, ref: string)
  {
    Autorizado(configurado, informado) && payload.event == Some(EVENT_BILLING_PAID) && ExternalId(payload) == Some(ref)
  }

  /** The reference a booking charge is created with routes back to that booking, for every `long` id. */
  lemma RotaDoAgendamento(configurado: Option<string>, informado: Option<string>, payload: Payload, id: int)
    requires InLongRange(id) && PagoCom(configurado, informado, payload, ExternalIdAgendamento(id))
    ensures Rotear(configurado, informado, Some(payload)) == ConfirmarAgendamento(id)
  {
    ParseSuffix("ag-", id);
  }

  /** The reference a subscription charge is created with routes back to that subscription, with the charge's id. */
  lemma RotaDaAssinatura(configurado: Option<string>, informado: Option<string>, payload: Payload, id: int)
    requires InLongRange(id) && PagoCom(configurado, informado, payload, AssinaturaServico.ExternalIdAssinatura(id))
    ensures Rotear(configurado, informado, Some(payload)) == ProcessarAssinatura(id, payload.data.value.billing.value.id)
  {
    ParseSuffix("sub-", id);
    var ref := AssinaturaServico.ExternalIdAssinatura(id);
    assert ref[0] == 's' && ref[..3][0] == ref[0];
  }

  /** A blank or absent configured secret lets every caller through. */
  lemma SegredoEmBrancoNaoBloqueia(configurado: Option<string>, informado: Option<string>, payload: Option<Payload>)
    requires configurado.None? || IsBlank(configurado.value)
    ensures Rotear(configurado, informado, payload) != NaoAutorizado
  {
  }

  /** The status of a call that dispatches nothing. */
  function StatusSemAcao(r: Rota): (s: int)
    requires !r.ConfirmarAgendamento? && !r.ProcessarAssinatura?
    ensures s == 400 <==> r == CorpoAusente
    ensures s == 401 <==> r == NaoAutorizado
    ensures s == 200 || s == 400 || s == 401
  {
    match r
    case CorpoAusente => 400
    case NaoAutorizado => 401
    case _ => 200
  }

  class WebhookController {
    const props: Propriedades
    const agendamentoService: AgendamentoServico.AgendamentoService
    const assinaturaService: AssinaturaServico.AssinaturaService

    constructor (props: Propriedades, agendamentoService: AgendamentoServico.AgendamentoService,
                 assinaturaService: AssinaturaServico.AssinaturaService)
      ensures this.props == props && this.agendamentoService == agendamentoService
      ensures this.assinaturaService == assinaturaService
    {
      this.props := props;
      this.agendamentoService := agendamentoService;
      this.assinaturaService := assinaturaService;
    }

    /**
     * `handleWebhook`: answers with the status of the route; a dispatched
     * call that raises answers 500, except that a malformed number answers 200.
     */
    method HandleWebhook(webhookSecret: Option<string>, payload: Option<Payload>, agora: Instante) returns (status: int)
      requires agendamentoService.Valid() && assinaturaService.Valid()
      modifies agendamentoService.agendamentos.linhas.Values, agendamentoService.pagamentos.repositorio.porAgendamento.Values
      modifies assinaturaService.assinaturas, assinaturaService.wallets
      ensures agendamentoService.Valid() && assinaturaService.Valid()
      ensures var r := Rotear(props.webhookSecret, webhookSecret, payload);
        !r.ConfirmarAgendamento? && !r.ProcessarAssinatura? ==>
          status == StatusSemAcao(r)
          && unchanged(agendamentoService.agendamentos.linhas.Values, agendamentoService.pagamentos.repositorio.porAgendamento.Values)
          && unchanged(assinaturaService.assinaturas, assinaturaService.wallets)
      ensures var r := Rotear(props.webhookSecret, webhookSecret, payload);
        r.ConfirmarAgendamento? ==>
          var id := r.agendamentoId;
          unchanged(assinaturaService.assinaturas, assinaturaService.wallets)
          && (status == 500 <==>
                (id !in agendamentoService.agendamentos.linhas
                 || (old(agendamentoService.agendamentos.linhas[id].status) == Dominio.ACEITO
                     && id !in agendamentoService.pagamentos.repositorio.porAgendamento)))
          && (status == 200 || status == 500)
          && agendamentoService.ConfirmadoPeloGateway(id, agora)
      ensures var r := Rotear(props.webhookSecret, webhookSecret, payload);
        r.ProcessarAssinatura? ==>
          unchanged(agendamentoService.agendamentos.linhas.Values, agendamentoService.pagamentos.repositorio.porAgendamento.Values)
          && (status == 500 <==> forall a :: a in old(assinaturaService.assinaturas.linhas) ==> a.id != r.assinaturaId)
          && (status == 200 || status == 500)
          && (status == 200 ==> assinaturaService.PagamentoProcessado(r.assinaturaId, r.billingId, agora))
          && (status == 500 ==>
                assinaturaService.assinaturas.linhas == old(assinaturaService.assinaturas.linhas)
                && assinaturaService.wallets.porPrestador == old(assinaturaService.wallets.porPrestador)
                && assinaturaService.wallets.proximoId == old(assinaturaService.wallets.proximoId))
    {
      var rota := Rotear(props.webhookSecret, webhookSecret, payload);
      match rota
      case ConfirmarAgendamento(id) =>
        status := RotaAgendamento(id, agora);
      case ProcessarAssinatura(id, billingId) =>
        status := RotaAssinatura(id, billingId, agora);
      case _ =>
        status := StatusSemAcao(rota);
    }

    /** The booking route: 500 when confirming the payment raises, 200 otherwise. */
    method RotaAgendamento(id: int, agora: Instante) returns (status: int)
      requires agendamentoService.Valid() && assinaturaService.Valid()
      modifies agendamentoService.agendamentos.linhas.Values, agendamentoService.pagamentos.repositorio.porAgendamento.Values
      ensures agendamentoService.Valid() && assinaturaService.Valid()
      ensures status == 500 <==>
                (id !in agendamentoService.agendamentos.linhas
                 || (old(agendamentoService.agendamentos.linhas[id].status) == Dominio.ACEITO
                     && id !in agendamentoService.pagamentos.repositorio.porAgendamento))
      ensures status == 200 || status == 500
      ensures agendamentoService.ConfirmadoPeloGateway(id, agora)
    {
      var erro := agendamentoService.ConfirmarPagamentoPorIdAgendamento(id, agora);
      status := if erro.Some? then 500 else 200;
    }

    /** The subscription route: 500 when the subscription is unknown, 200 otherwise. */
    method RotaAssinatura(id: int, billingId: Option<string>, agora: Instante) returns (status: int)
      requires agendamentoService.Valid() && assinaturaService.Valid()
      modifies assinaturaService.assinaturas, assinaturaService.wallets
      ensures agendamentoService.Valid() && assinaturaService.Valid()
      ensures status == 500 <==> forall a :: a in old(assinaturaService.assinaturas.linhas) ==> a.id != id
      ensures status == 200 || status == 500
      ensures status == 200 ==> assinaturaService.PagamentoProcessado(id, billingId, agora)
      ensures status == 500 ==>
        assinaturaService.assinaturas.linhas == old(assinaturaService.assinaturas.linhas)
        && assinaturaService.wallets.porPrestador == old(assinaturaService.wallets.porPrestador)
        && assinaturaService.wallets.proximoId == old(assinaturaService.wallets.proximoId)
    {
      var r := assinaturaService.ProcessarPagamentoAssinatura(id, billingId, agora);
      status := if r.Failure? then 500 else 200;
    }
  }
}
