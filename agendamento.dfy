/**
 * The booking entity. Its identity, parties, time, payment method, price,
 * note and service address are fixed when it is built; the status, the
 * timestamps, the check-in/check-out readings and the two listing-only
 * annotations are fields the service updates in place.
 */
module AgendamentoEntidade {
  import opened Wrappers
  import opened Tempo
  import opened Dominio

  /** The updatable fields of a booking, as one value. */
  datatype EstadoAgendamento = EstadoAgendamento(
    status: StatusAgendamento,
    criadoEm: Option<Instante>,
    confirmadoEm: Option<Instante>,
    checkinEm: Option<Instante>,
    checkoutEm: Option<Instante>,
    checkinLatitude: Option<Coordenada>,
    checkinLongitude: Option<Coordenada>,
    checkoutLatitude: Option<Coordenada>,
    checkoutLongitude: Option<Coordenada>,
    fotoTrabalhoUrl: Option<string>,
    podeFazerAvaliacao: Option<bool>,
    avaliacaoId: Option<string>)

  /** What `prePersist` leaves in `criadoEm`: the clock reading only when it was unset. */
  function CriadoEmAposPersistir(criadoEm: Option<Instante>, agora: Instante): (r: Option<Instante>)
    ensures r.Some?
    ensures criadoEm.Some? ==> r == criadoEm
    ensures criadoEm.None? ==> r == Some(agora)
  {
    if criadoEm.None? then Some(agora) else criadoEm
  }

  /** Persisting twice keeps the first creation time, whatever the second clock reading. */
  lemma CriadoEmIdempotente(criadoEm: Option<Instante>, agora1: Instante, agora2: Instante)
    ensures CriadoEmAposPersistir(CriadoEmAposPersistir(criadoEm, agora1), agora2)
         == CriadoEmAposPersistir(criadoEm, agora1)
  {
  }

  class Agendamento {
    const id: int
    const cliente: Option<Cliente>
    const prestador: Option<Prestador>
    const dataHora: Instante
    const formaPagamento: FormaPagamento
    const valorServico: Option<Centavos>
    const observacao: Option<string>
    const endereco: Option<Endereco>

    var status: StatusAgendamento
    var criadoEm: Option<Instante>
    var confirmadoEm: Option<Instante>
    var checkinEm: Option<Instante>
    var checkoutEm: Option<Instante>
    var checkinLatitude: Option<Coordenada>
    var checkinLongitude: Option<Coordenada>
    var checkoutLatitude: Option<Coordenada>
    var checkoutLongitude: Option<Coordenada>
    var fotoTrabalhoUrl: Option<string>
    var podeFazerAvaliacao: Option<bool>
    var avaliacaoId: Option<string>

    function Estado(): EstadoAgendamento
      reads this
    {
      EstadoAgendamento(status, criadoEm, confirmadoEm, checkinEm, checkoutEm, checkinLatitude, checkinLongitude,
             checkoutLatitude, checkoutLongitude, fotoTrabalhoUrl, podeFazerAvaliacao, avaliacaoId)
    }

    /** The builder: every field it is not given starts null. */
    constructor (id: int, cliente: Option<Cliente>, prestador: Option<Prestador>, dataHora: Instante,
                 status: StatusAgendamento, formaPagamento: FormaPagamento, valorServico: Option<Centavos>,
                 observacao: Option<string>, endereco: Option<Endereco>)
      ensures this.id == id && this.cliente == cliente && this.prestador == prestador
      ensures this.dataHora == dataHora && this.formaPagamento == formaPagamento
      ensures this.valorServico == valorServico && this.observacao == observacao && this.endereco == endereco
      ensures Estado() == EstadoAgendamento(status, None, None, None, None, None, None, None, None, None, None, None)
    {
      this.id := id;
      this.cliente := cliente;
      this.prestador := prestador;
      this.dataHora := dataHora;
      this.formaPagamento := formaPagamento;
      this.valorServico := valorServico;
      this.observacao := observacao;
      this.endereco := endereco;
      this.status := status;
      criadoEm, confirmadoEm, checkinEm, checkoutEm := None, None, None, None;
      checkinLatitude, checkinLongitude, checkoutLatitude, checkoutLongitude := None, None, None, None;
      fotoTrabalhoUrl, podeFazerAvaliacao, avaliacaoId := None, None, None;
    }

    /** `@PrePersist`: stamps `criadoEm` only when it is unset. */
    method PrePersist(agora: Instante)
      modifies this
      ensures Estado() == old(Estado()).(criadoEm := CriadoEmAposPersistir(old(criadoEm), agora))
    {
      if criadoEm.None? {
        criadoEm := Some(agora);
      }
    }

    /** The entity's transitions overwrite the status whatever it was. */
    method Aceitar()
      modifies this
      ensures Estado() == old(Estado()).(status := ACEITO)
    {
      status := ACEITO;
    }

    /** The only transition that also stamps a time. */
    method Confirmar(agora: Instante)
      modifies this
      ensures Estado() == old(Estado()).(status := CONFIRMADO, confirmadoEm := Some(agora))
    {
      status := CONFIRMADO;
      confirmadoEm := Some(agora);
    }

    method Recusar()
      modifies this
      ensures Estado() == old(Estado()).(status := RECUSADO)
    {
      status := RECUSADO;
    }

    method Cancelar()
      modifies this
      ensures Estado() == old(Estado()).(status := CANCELADO)
    {
      status := CANCELADO;
    }

    method MarcarRealizado()
      modifies this
      ensures Estado() == old(Estado()).(status := REALIZADO)
    {
      status := REALIZADO;
    }

    /** `getClienteId`: null when there is no client, otherwise the client's id. */
    function ClienteId(): (r: Option<int>)
      ensures r.None? <==> cliente.None?
      ensures cliente.Some? ==> r == Some(cliente.value.id)
    {
      match cliente
      case None => None
      case Some(c) => Some(c.id)
    }

    /** `getPrestadorId`: null when there is no provider, otherwise the provider's id. */
    function PrestadorId(): (r: Option<int>)
      ensures r.None? <==> prestador.None?
      ensures prestador.Some? ==> r == Some(prestador.value.id)
    {
      match prestador
      case None => None
      case Some(p) => Some(p.id)
    }
  }

  /** The booking statuses the exact-time conflict query looks for. */
  const STATUS_QUE_BLOQUEIAM: set<StatusAgendamento> := {PENDENTE, ACEITO, CONFIRMADO}

  /** The booking table, with the identity counter that numbers new rows. */
  class AgendamentoRepository {
    var linhas: map<int, Agendamento>
    var proximoId: int

    /** Each row is stored under its own id, and both join columns are non-null. */
    ghost predicate Valid()
      reads this
    {
      forall k :: k in linhas ==>
        linhas[k].id == k && k < proximoId && linhas[k].cliente.Some? && linhas[k].prestador.Some?
    }

    constructor ()
      ensures Valid() && linhas == map[]
    {
      linhas := map[];
      proximoId := 1;
    }

    /** The objects a call about booking `id` may update. */
    function Alvo(id: int): set<Agendamento>
      reads this
    {
      if id in linhas then {linhas[id]} else {}
    }

    /**
     * `existsByPrestadorIdAndDataHoraBetweenAndStatusIn`: some booking of the
     * provider lies between `inicio` and `fim`, both included, in one of `statuses`.
     */
    predicate ExisteEntre(prestadorId: int, inicio: Instante, fim: Instante, statuses: set<StatusAgendamento>)
      reads this, linhas.Values
    {
      exists k :: k in linhas && linhas[k].PrestadorId() == Some(prestadorId)
        && inicio <= linhas[k].dataHora <= fim && linhas[k].status in statuses
    }
  }

  /** Two keys of a valid table never share a booking object. */
  lemma AgendamentosDistintos(r: AgendamentoRepository, a: int, b: int)
    requires r.Valid() && a in r.linhas && b in r.linhas && a != b
    ensures r.linhas[a] != r.linhas[b]
  {
  }
}
