/**
 * `AvaliacaoService.avaliar`: a client rates a finished booking once,
 * within seven days of the check-out (or of the booked time when there was none).
 */
module AvaliacaoServico {
  import opened Wrappers
  import opened Tempo
  import opened Dominio
  import opened AgendamentoEntidade
  import ClienteServico

  const NAO_ENCONTRADO: string := "Agendamento não encontrado."
  const SOMENTE_O_CLIENTE: string := "Somente o cliente do agendamento pode avaliar."
  const SOMENTE_REALIZADOS: string := "Somente agendamentos realizados podem ser avaliados."
  const JA_AVALIADO: string := "Este agendamento já foi avaliado."
  const PRAZO_EXPIRADO: string := "O prazo para avaliação deste agendamento expirou."

  /** The review window, in days. */
  const DIAS_PARA_AVALIAR: int := 7

  datatype DadosAvaliacao = DadosAvaliacao(nota: int, comentario: Option<string>)

  datatype Avaliacao = Avaliacao(
    id: int,
    agendamentoId: int,
    clienteId: int,
    prestadorId: int,
    nota: int,
    comentario: Option<string>,
    criadoEm: Instante)

  /** The review table; a booking has at most one review (a unique join column). */
  class AvaliacaoRepository {
    var linhas: seq<Avaliacao>
    var proximoId: int

    ghost predicate Valid()
      reads this
    {
      (forall i :: 0 <= i < |linhas| ==> linhas[i].id < proximoId)
      && forall i, j :: 0 <= i < j < |linhas| ==> linhas[i].agendamentoId != linhas[j].agendamentoId && linhas[i].id != linhas[j].id
    }

    constructor ()
      ensures Valid() && linhas == []
    {
      linhas := [];
      proximoId := 1;
    }

    /** `findByAgendamentoId`. */
    function PorAgendamento(agendamentoId: int): (r: Option<Avaliacao>)
      reads this
      ensures r.Some? ==> r.value in linhas && r.value.agendamentoId == agendamentoId
      ensures r.None? <==> forall a :: a in linhas ==> a.agendamentoId != agendamentoId
    {
      match IndiceDe(linhas, (a: Avaliacao) => a.agendamentoId == agendamentoId)
      case None => None
      case Some(i) => Some(linhas[i])
    }
  }

  /** The instant the window counts from: the check-out, or the booked time without one. */
  function Referencia(a: Agendamento): (r: Instante)
    reads a
    ensures a.checkoutEm.Some? ==> r == a.checkoutEm.value
    ensures a.checkoutEm.None? ==> r == a.dataHora
  {
    if a.checkoutEm.Some? then a.checkoutEm.value else a.dataHora
  }

  /** `referencia.plusDays(7).isBefore(now)`: the deadline has strictly passed. */
  predicate Expirado(referencia: Instante, agora: Instante)
  {
    MaisDias(referencia, DIAS_PARA_AVALIAR) < agora
  }

  class AvaliacaoService {
    const clientes: ClienteRepository
    const agendamentos: AgendamentoRepository
    const avaliacoes: AvaliacaoRepository

    constructor (clientes: ClienteRepository, agendamentos: AgendamentoRepository, avaliacoes: AvaliacaoRepository)
      ensures this.clientes == clientes && this.agendamentos == agendamentos && this.avaliacoes == avaliacoes
    {
      this.clientes := clientes;
      this.agendamentos := agendamentos;
      this.avaliacoes := avaliacoes;
    }

    /**
     * Why `avaliar` refuses, in the order it checks: unknown client, unknown
     * booking, someone else's booking, not REALIZADO, already reviewed, too late.
     */
    function Recusa(clienteKeycloakId: string, agendamentoId: int, agora: Instante): (r: Option<string>)
      requires agendamentos.Valid()
      reads this, clientes, agendamentos, agendamentos.linhas.Values, avaliacoes
      ensures r.None? <==>
        ClientePorKeycloak(clientes.clientes, clienteKeycloakId).Some? && agendamentoId in agendamentos.linhas
        && agendamentos.linhas[agendamentoId].cliente.value.id == ClientePorKeycloak(clientes.clientes, clienteKeycloakId).value.id
        && agendamentos.linhas[agendamentoId].status == REALIZADO
        && avaliacoes.PorAgendamento(agendamentoId).None?
        && !Expirado(Referencia(agendamentos.linhas[agendamentoId]), agora)
      ensures ClientePorKeycloak(clientes.clientes, clienteKeycloakId).None? ==> r == Some(ClienteServico.CLIENTE_NAO_ENCONTRADO)
    {
      match ClientePorKeycloak(clientes.clientes, clienteKeycloakId)
      case None => Some(ClienteServico.CLIENTE_NAO_ENCONTRADO)
      case Some(c) =>
        if agendamentoId !in agendamentos.linhas then Some(NAO_ENCONTRADO)
        else
          var a := agendamentos.linhas[agendamentoId];
          if a.cliente.value.id != c.id then Some(SOMENTE_O_CLIENTE)
          else if a.status != REALIZADO then Some(SOMENTE_REALIZADOS)
          else if avaliacoes.PorAgendamento(agendamentoId).Some? then Some(JA_AVALIADO)
          else if Expirado(Referencia(a), agora) then Some(PRAZO_EXPIRADO)
          else None
    }

    /**
     * `avaliar`: a refusal writes nothing; otherwise one review is stored
     * for the booking, its client and its provider.
     */
    method Avaliar(clienteKeycloakId: string, agendamentoId: int, dados: DadosAvaliacao, agora: Instante)
      returns (r: Result<Avaliacao>)
      // The request body is validated before the service runs: the score is present and between 1 and 5 (`@NotNull @Min(1) @Max(5)` on `DadosAvaliacao.nota`).
      requires 1 <= dados.nota <= 5
      requires agendamentos.Valid() && avaliacoes.Valid()
      modifies avaliacoes
      ensures avaliacoes.Valid()
      ensures r.Failure? <==> old(Recusa(clienteKeycloakId, agendamentoId, agora)).Some?
      ensures r.Failure? ==> (r.error == old(Recusa(clienteKeycloakId, agendamentoId, agora)).value
        && avaliacoes.linhas == old(avaliacoes.linhas) && avaliacoes.proximoId == old(avaliacoes.proximoId))
      ensures r.Success? ==>
        var a := agendamentos.linhas[agendamentoId];
        r.value == Avaliacao(old(avaliacoes.proximoId), agendamentoId, a.cliente.value.id, a.prestador.value.id,
                             dados.nota, dados.comentario, agora)
        && avaliacoes.linhas == old(avaliacoes.linhas) + [r.value]
        && avaliacoes.proximoId == old(avaliacoes.proximoId) + 1
      ensures r.Success? ==> avaliacoes.PorAgendamento(agendamentoId) == Some(r.value)
    {
      var recusa := Recusa(clienteKeycloakId, agendamentoId, agora);
      if recusa.Some? {
        return Failure(recusa.value);
      }
      var a := agendamentos.linhas[agendamentoId];
      var av := Avaliacao(avaliacoes.proximoId, agendamentoId, a.cliente.value.id, a.prestador.value.id,
                          dados.nota, dados.comentario, agora);
      ghost var antes := avaliacoes.linhas;
      assert forall x :: x in antes ==> x.agendamentoId != agendamentoId;
      avaliacoes.linhas := avaliacoes.linhas + [av];
      avaliacoes.proximoId := avaliacoes.proximoId + 1;
      r := Success(av);
    }
  }

  /** A booking that has a review is refused with the duplicate error once the earlier checks pass. */
  lemma SegundaAvaliacaoRecusada(s: AvaliacaoService, clienteKeycloakId: string, agendamentoId: int, agora: Instante)
    requires s.agendamentos.Valid()
    requires ClientePorKeycloak(s.clientes.clientes, clienteKeycloakId).Some? && agendamentoId in s.agendamentos.linhas
    requires s.agendamentos.linhas[agendamentoId].cliente.value.id == ClientePorKeycloak(s.clientes.clientes, clienteKeycloakId).value.id
    requires s.agendamentos.linhas[agendamentoId].status == REALIZADO
    requires s.avaliacoes.PorAgendamento(agendamentoId).Some?
    ensures s.Recusa(clienteKeycloakId, agendamentoId, agora) == Some(JA_AVALIADO)
  {
  }

  /** Reviews close strictly after seven days: exactly at the deadline a review is still accepted. */
  lemma PrazoInclusivo(referencia: Instante)
    ensures !Expirado(referencia, MaisDias(referencia, DIAS_PARA_AVALIAR))
    ensures Expirado(referencia, MaisDias(referencia, DIAS_PARA_AVALIAR) + 1)
  {
  }
}
