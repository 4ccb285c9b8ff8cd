/**
 * The payment entity: one row per booking. The booking reference, the
 * checkout link and the gateway billing id are fixed at creation; the status
 * and the two timestamps are updated in place.
 */
module PagamentoEntidade {
  import opened Wrappers
  import opened Tempo

  datatype StatusPagamento = PENDENTE | CONFIRMADO | CANCELADO | NAO_APLICAVEL

  datatype EstadoPagamento = EstadoPagamento(
    status: StatusPagamento,
    criadoEm: Option<Instante>,
    confirmadoEm: Option<Instante>)

  class Pagamento {
    const id: int
    /** The booking this payment belongs to (a unique, non-null join column). */
    const agendamentoId: int
    const linkPagamento: Option<string>
    const billingId: Option<string>

    var status: StatusPagamento
    var criadoEm: Option<Instante>
    var confirmadoEm: Option<Instante>

    function Estado(): EstadoPagamento
      reads this
    {
      EstadoPagamento(status, criadoEm, confirmadoEm)
    }

    /** The builder: the timestamps start null. */
    constructor (id: int, agendamentoId: int, status: StatusPagamento,
                 linkPagamento: Option<string>, billingId: Option<string>)
      ensures this.id == id && this.agendamentoId == agendamentoId
      ensures this.linkPagamento == linkPagamento && this.billingId == billingId
      ensures Estado() == EstadoPagamento(status, None, None)
    {
      this.id := id;
      this.agendamentoId := agendamentoId;
      this.linkPagamento := linkPagamento;
      this.billingId := billingId;
      this.status := status;
      criadoEm := None;
      confirmadoEm := None;
    }

    /** `@PrePersist`: stamps `criadoEm` only when it is unset. */
    method PrePersist(agora: Instante)
      modifies this
      ensures Estado() == old(Estado()).(criadoEm := if old(criadoEm).None? then Some(agora) else old(criadoEm))
    {
      if criadoEm.None? {
        criadoEm := Some(agora);
      }
    }

    /** Marks the payment confirmed and stamps the time; link, billing id, creation time and booking stay. */
    method Confirmar(agora: Instante)
      modifies this
      ensures Estado() == old(Estado()).(status := CONFIRMADO, confirmadoEm := Some(agora))
    {
      status := CONFIRMADO;
      confirmadoEm := Some(agora);
    }
  }

  /**
   * The payment table, keyed by booking id: the unique index on `agendamento_id`
   * means a booking has at most one payment, which the map's keys make structural.
   */
  class PagamentoRepository {
    var porAgendamento: map<int, Pagamento>
    var proximoId: int

    ghost predicate Valid()
      reads this
    {
      forall k :: k in porAgendamento ==> porAgendamento[k].agendamentoId == k
    }

    constructor ()
      ensures Valid() && porAgendamento == map[]
    {
      porAgendamento := map[];
      proximoId := 1;
    }

    /** The objects a call about booking `agendamentoId` may update. */
    function Alvo(agendamentoId: int): set<Pagamento>
      reads this
    {
      if agendamentoId in porAgendamento then {porAgendamento[agendamentoId]} else {}
    }
  }

  /** Two keys of a valid table never share a payment object. */
  lemma PagamentosDistintos(m: map<int, Pagamento>, a: int, b: int)
    requires forall k :: k in m ==> m[k].agendamentoId == k
    requires a in m && b in m && a != b
    ensures m[a] != m[b]
  {
  }
}
