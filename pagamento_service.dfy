/**
 * Payment records for bookings: get-or-create when a booking is accepted,
 * confirmation that never re-stamps a confirmed payment, and cancellation.
 */
module PagamentoServico {
  import opened Wrappers
  import opened Tempo
  import opened Numeros
  import opened Dominio
  import opened AgendamentoEntidade
  import opened PagamentoEntidade
  import opened AbacatePay

  const URL_CHECKOUT_PADRAO: string := "https://pagamentos.ajeitai.com/checkout/"
  const PAGAMENTO_NAO_ENCONTRADO: string := "Pagamento não encontrado."

  /** `definirStatusInicial`: cash payments are not applicable, everything else waits. */
  function StatusInicial(forma: FormaPagamento): (s: StatusPagamento)
    ensures s == NAO_APLICAVEL <==> forma == DINHEIRO
    ensures s == StatusPagamento.PENDENTE <==> forma != DINHEIRO
  {
    if forma == DINHEIRO then NAO_APLICAVEL else StatusPagamento.PENDENTE
  }

  /**
   * What `confirmarPagamento` leaves in a payment: a confirmed payment as it
   * was, any other status confirmed at `agora`.
   */
  function EstadoConfirmado(e: EstadoPagamento, agora: Instante): (r: EstadoPagamento)
    ensures r.status == StatusPagamento.CONFIRMADO && r.criadoEm == e.criadoEm
    ensures e.status == StatusPagamento.CONFIRMADO ==> r == e
    ensures e.status != StatusPagamento.CONFIRMADO ==> r.confirmadoEm == Some(agora)
  {
    if e.status == StatusPagamento.CONFIRMADO then e
    else e.(status := StatusPagamento.CONFIRMADO, confirmadoEm := Some(agora))
  }

  /** Confirmation is monotone: a second confirmation, at any time, changes nothing. */
  lemma ConfirmacaoIdempotente(e: EstadoPagamento, agora1: Instante, agora2: Instante)
    ensures EstadoConfirmado(EstadoConfirmado(e, agora1), agora2) == EstadoConfirmado(e, agora1)
  {
  }

  /**
   * The payment `criarPagamento` builds for a booking that has none yet: the
   * initial status for its method, stamped at creation; a cash payment has
   * neither link nor billing id; an online one takes the gateway's link and
   * billing id, or the fallback checkout link when the gateway answers null.
   */
  ghost predicate PagamentoNovo(p: Pagamento, agendamentoId: int, forma: FormaPagamento,
                                resultadoGateway: Option<BillingResult>, agora: Instante)
    reads p
  {
    && p.agendamentoId == agendamentoId
    && p.Estado() == EstadoPagamento(StatusInicial(forma), Some(agora), None)
    && (forma == DINHEIRO ==> p.linkPagamento == None && p.billingId == None)
    && (forma == ONLINE ==>
          match resultadoGateway
          case Some(b) => p.linkPagamento == b.paymentUrl && p.billingId == b.billingId
          case None => p.linkPagamento == Some(URL_CHECKOUT_PADRAO + LongToString(agendamentoId)) && p.billingId == None)
  }

  class PagamentoService {
    const repositorio: PagamentoRepository

    constructor (repositorio: PagamentoRepository)
      ensures this.repositorio == repositorio
    {
      this.repositorio := repositorio;
    }

    /**
     * `criarPagamento`: the booking's existing payment, untouched, or a new one.
     * `resultadoGateway` is what the gateway's `createBilling` would answer
     * (None for null); it only matters for a new ONLINE payment.
     */
    method CriarPagamento(agendamento: Agendamento, resultadoGateway: Option<BillingResult>, agora: Instante)
      returns (p: Pagamento)
      requires repositorio.Valid()
      modifies repositorio
      ensures repositorio.Valid()
      ensures agendamento.id in old(repositorio.porAgendamento) ==>
        p == old(repositorio.porAgendamento[agendamento.id]) && unchanged(p)
        && repositorio.porAgendamento == old(repositorio.porAgendamento)
        && repositorio.proximoId == old(repositorio.proximoId)
      ensures agendamento.id !in old(repositorio.porAgendamento) ==>
        fresh(p) && repositorio.porAgendamento == old(repositorio.porAgendamento)[agendamento.id := p]
        && p.id == old(repositorio.proximoId) && repositorio.proximoId == old(repositorio.proximoId) + 1
        && PagamentoNovo(p, agendamento.id, agendamento.formaPagamento, resultadoGateway, agora)
    {
      if agendamento.id in repositorio.porAgendamento {
        p := repositorio.porAgendamento[agendamento.id];
        return;
      }
      var status := StatusInicial(agendamento.formaPagamento);
      var link: Option<string> := None;
      var billingId: Option<string> := None;
      if agendamento.formaPagamento == ONLINE {
        if resultadoGateway.Some? {
          link := resultadoGateway.value.paymentUrl;
          billingId := resultadoGateway.value.billingId;
        } else {
          link := Some(URL_CHECKOUT_PADRAO + LongToString(agendamento.id));
        }
      }
      p := new Pagamento(repositorio.proximoId, agendamento.id, status, link, billingId);
      p.PrePersist(agora);
      repositorio.porAgendamento := repositorio.porAgendamento[agendamento.id := p];
      repositorio.proximoId := repositorio.proximoId + 1;
    }

    /** `confirmarPagamento`: fails without a payment; a confirmed payment keeps its first confirmation time. */
    method ConfirmarPagamento(agendamentoId: int, agora: Instante) returns (r: Result<Pagamento>)
      requires repositorio.Valid()
      modifies repositorio.Alvo(agendamentoId)
      ensures agendamentoId !in repositorio.porAgendamento ==> r == Failure(PAGAMENTO_NAO_ENCONTRADO)
      ensures agendamentoId in repositorio.porAgendamento ==>
        r == Success(repositorio.porAgendamento[agendamentoId])
        && r.value.Estado() == EstadoConfirmado(old(r.value.Estado()), agora)
    {
      if agendamentoId !in repositorio.porAgendamento {
        return Failure(PAGAMENTO_NAO_ENCONTRADO);
      }
      var p := repositorio.porAgendamento[agendamentoId];
      if p.status != StatusPagamento.CONFIRMADO {
        p.Confirmar(agora);
      }
      return Success(p);
    }

    /** `buscarPorAgendamento`. */
    function BuscarPorAgendamento(agendamentoId: int): (r: Result<Pagamento>)
      reads repositorio
      ensures r.Success? <==> agendamentoId in repositorio.porAgendamento
      ensures r.Success? ==> r.value == repositorio.porAgendamento[agendamentoId]
      ensures r.Failure? ==> r.error == PAGAMENTO_NAO_ENCONTRADO
    {
      if agendamentoId in repositorio.porAgendamento then Success(repositorio.porAgendamento[agendamentoId])
      else Failure(PAGAMENTO_NAO_ENCONTRADO)
    }

    /** `cancelarPorAgendamento`: nothing happens without a payment; otherwise only its status becomes StatusPagamento.CANCELADO. */
    method CancelarPorAgendamento(agendamentoId: int)
      requires repositorio.Valid()
      modifies repositorio.Alvo(agendamentoId)
      ensures agendamentoId in repositorio.porAgendamento ==>
        var p := repositorio.porAgendamento[agendamentoId];
        p.Estado() == old(p.Estado()).(status := StatusPagamento.CANCELADO)
    {
      if agendamentoId in repositorio.porAgendamento {
        var p := repositorio.porAgendamento[agendamentoId];
        p.status := StatusPagamento.CANCELADO;
      }
    }
  }
}
