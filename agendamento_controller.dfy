/**
 * The booking endpoints that hold logic of their own: the status filter of
 * the client's list, the review annotations of that list, the photo guard
 * of the check-out and the payment lookup (which may create the payment).
 */
module AgendamentoControle {
  import opened Wrappers
  import opened Texto
  import opened Numeros
  import opened Tempo
  import opened Dominio
  import opened AgendamentoEntidade
  import opened AgendamentoServico
  import opened AvaliacaoServico
  import PagamentoEntidade
  import PagamentoServico
  import AbacatePay

  /** `StatusAgendamento.name()`. */
  function Nome(s: StatusAgendamento): string
  {
    match s
    case PENDENTE => "PENDENTE"
    case ACEITO => "ACEITO"
    case CONFIRMADO => "CONFIRMADO"
    case REALIZADO => "REALIZADO"
    case CANCELADO => "CANCELADO"
    case RECUSADO => "RECUSADO"
  }

  /** The front-end's own words for the statuses, already in lower case. */
  function Apelido(v: string): Option<StatusAgendamento>
  {
    if v == "solicitado" then Some(PENDENTE)
    else if v == "agendado" then Some(ACEITO)
    else if v == "em_andamento" then Some(CONFIRMADO)
    else if v == "concluido" then Some(REALIZADO)
    else if v == "cancelado" then Some(CANCELADO)
    else if v == "recusado" then Some(RECUSADO)
    else None
  }

  /** The names in lower case, as `toLowerCase` writes them. */
  function NomeMinusculo(s: StatusAgendamento): string
  {
    match s
    case PENDENTE => "pendente"
    case ACEITO => "aceito"
    case CONFIRMADO => "confirmado"
    case REALIZADO => "realizado"
    case CANCELADO => "cancelado"
    case RECUSADO => "recusado"
  }

  /** Lower-casing a string is lower-casing each of its characters. */
  lemma MinusculoPorCaractere(a: string, b: string)
    requires |a| == |b| && forall i :: 0 <= i < |a| ==> ToLowerChar(a[i]) == b[i]
    ensures ToLower(a) == b
  {
  }

  lemma MinusculoDoNome(s: StatusAgendamento)
    ensures ToLower(Nome(s)) == NomeMinusculo(s)
  {
    MinusculoPorCaractere(Nome(s), NomeMinusculo(s));
  }

  lemma NomesMinusculos()
    ensures forall s: StatusAgendamento :: ToLower(Nome(s)) == NomeMinusculo(s)
  {
    forall s: StatusAgendamento
      ensures ToLower(Nome(s)) == NomeMinusculo(s)
    {
      MinusculoDoNome(s);
    }
  }

  /** The first status, in declaration order, whose name equals `v` ignoring case. */
  function PorNome(v: string): (r: Option<StatusAgendamento>)
    ensures r.Some? ==> EqualsIgnoreCase(Nome(r.value), v)
    ensures r.None? <==> forall s: StatusAgendamento :: !EqualsIgnoreCase(Nome(s), v)
  {
    NomesMinusculos();
    var l := ToLower(v);
    if l == "pendente" then Some(PENDENTE)
    else if l == "aceito" then Some(ACEITO)
    else if l == "confirmado" then Some(CONFIRMADO)
    else if l == "realizado" then Some(REALIZADO)
    else if l == "cancelado" then Some(CANCELADO)
    else if l == "recusado" then Some(RECUSADO)
    else None
  }

  /**
   * `mapStatusFromFrontend`: empty for a null or blank value; otherwise the
   * alias of the lower-cased value, else the status named by it ignoring
   * case, else empty (an unknown value is not an error).
   */
  function MapStatusFromFrontend(value: Option<string>): (r: Option<StatusAgendamento>)
    ensures value.None? || IsBlank(value.value) ==> r.None?
    ensures value.Some? && !IsBlank(value.value) && Apelido(ToLower(value.value)).Some? ==>
      r == Apelido(ToLower(value.value))
    ensures value.Some? && !IsBlank(value.value) && Apelido(ToLower(value.value)).None? ==>
      (r.None? <==> forall s: StatusAgendamento :: !EqualsIgnoreCase(Nome(s), value.value))
    ensures r.Some? ==> value.Some? && (Apelido(ToLower(value.value)) == r || EqualsIgnoreCase(Nome(r.value), value.value))
  {
    if value.None? || IsBlank(value.value) then None
    else
      var alias := Apelido(ToLower(value.value));
      if alias.Some? then alias else PorNome(value.value)
  }

  /** A non-blank value whose lower-case form is `l` is looked up by `l`. */
  lemma Selecao(v: string, l: string)
    requires v != [] && !IsWhitespace(v[0]) && ToLower(v) == l
    ensures MapStatusFromFrontend(Some(v)) == (if Apelido(l).Some? then Apelido(l) else PorNome(v))
  {
  }

  /** Only CANCELADO and RECUSADO have an alias equal to their own name, and it names them. */
  lemma ApelidoDoNome(s: StatusAgendamento)
    ensures Apelido(NomeMinusculo(s)) == None || Apelido(NomeMinusculo(s)) == Some(s)
  {
  }

  /** Distinct statuses have distinct names, whatever the case. */
  lemma NomesDistintos(s: StatusAgendamento, t: StatusAgendamento)
    requires EqualsIgnoreCase(Nome(s), Nome(t))
    ensures s == t
  {
    MinusculoDoNome(s);
    MinusculoDoNome(t);
  }

  /** Every status's own name selects that status. */
  lemma NomeSelecionaStatus(s: StatusAgendamento)
    ensures MapStatusFromFrontend(Some(Nome(s))) == Some(s)
  {
    MinusculoDoNome(s);
    ApelidoDoNome(s);
    Selecao(Nome(s), NomeMinusculo(s));
    var r := PorNome(Nome(s));
    assert r.Some?;
    NomesDistintos(r.value, s);
  }

  /** An alias is matched after lower-casing: "Concluido" selects REALIZADO. */
  lemma ApelidoIgnoraCaixa()
    ensures MapStatusFromFrontend(Some("Concluido")) == Some(REALIZADO)
  {
    MinusculoConcluido();
    assert Apelido("concluido") == Some(REALIZADO);
    Selecao("Concluido", "concluido");
  }

  lemma MinusculoConcluido()
    ensures ToLower("Concluido") == "concluido"
  {
    MinusculoPorCaractere("Concluido", "concluido");
  }

  /** A value that is neither an alias nor a status name selects nothing. */
  lemma ValorDesconhecido()
    ensures MapStatusFromFrontend(Some("todos")) == None
  {
    MinusculoPorCaractere("todos", "todos");
    Selecao("todos", "todos");
  }

  /** The two listing-only fields `listarMeus` sets on a booking. */
  datatype Anotacao = Anotacao(podeFazerAvaliacao: Option<bool>, avaliacaoId: Option<string>)

  /** `ref.plusDays(7).isAfter(agora)`: the list's own, strict, reading of the deadline. */
  predicate DentroDoPrazo(referencia: Instante, agora: Instante)
  {
    MaisDias(referencia, DIAS_PARA_AVALIAR) > agora
  }

  /**
   * The annotation of one booking: not REALIZADO gives false and no review;
   * a stored review gives its id and false; otherwise eligibility is the
   * strict deadline test.
   */
  function AnotacaoDe(a: Agendamento, avaliacao: Option<Avaliacao>, agora: Instante): (r: Anotacao)
    reads a
    ensures r.podeFazerAvaliacao.Some?
    ensures r.avaliacaoId.Some? <==> a.status == REALIZADO && avaliacao.Some?
    ensures r.avaliacaoId.Some? ==> r.avaliacaoId.value == LongToString(avaliacao.value.id)
    ensures r.podeFazerAvaliacao.value <==> a.status == REALIZADO && avaliacao.None? && DentroDoPrazo(Referencia(a), agora)
  {
    if a.status != REALIZADO then Anotacao(Some(false), None)
    else if avaliacao.Some? then
      Anotacao(Some(false), Some(LongToString(avaliacao.value.id)))
    else Anotacao(Some(DentroDoPrazo(Referencia(a), agora)), None)
  }

  /** The id the list shows reads back, as a long, as the stored review's id. */
  lemma AvaliacaoIdLegivel(a: Agendamento, avaliacao: Avaliacao, agora: Instante)
    requires a.status == REALIZADO && InLongRange(avaliacao.id)
    ensures ParseLong(AnotacaoDe(a, Some(avaliacao), agora).avaliacaoId.value) == Some(avaliacao.id)
  {
    ParseLongOfLongToString(avaliacao.id);
  }

  /**
   * The list and the service disagree only at the deadline itself: there
   * the list says the booking can no longer be reviewed while `avaliar`
   * still accepts the review.
   */
  lemma {:induction false} ListaEServicoNoPrazo(referencia: Instante, agora: Instante)
    ensures DentroDoPrazo(referencia, agora) ==> !Expirado(referencia, agora)
    ensures !Expirado(referencia, agora) && !DentroDoPrazo(referencia, agora) <==> agora == MaisDias(referencia, DIAS_PARA_AVALIAR)
  {
  }

  /**
   * For the caller's own REALIZADO booking without a review, the service
   * accepts a review exactly when the list offers one, or at the deadline.
   */
  lemma AnotacaoConcordaComAvaliar(s: AvaliacaoService, clienteKeycloakId: string, id: int, agora: Instante)
    requires s.agendamentos.Valid()
    requires ClientePorKeycloak(s.clientes.clientes, clienteKeycloakId).Some? && id in s.agendamentos.linhas
    requires s.agendamentos.linhas[id].cliente.value.id == ClientePorKeycloak(s.clientes.clientes, clienteKeycloakId).value.id
    requires s.agendamentos.linhas[id].status == REALIZADO
    ensures var a := s.agendamentos.linhas[id];
      s.Recusa(clienteKeycloakId, id, agora).None? <==>
        (AnotacaoDe(a, s.avaliacoes.PorAgendamento(id), agora).podeFazerAvaliacao == Some(true)
         || (s.avaliacoes.PorAgendamento(id).None? && agora == MaisDias(Referencia(a), DIAS_PARA_AVALIAR)))
  {
    ListaEServicoNoPrazo(Referencia(s.agendamentos.linhas[id]), agora);
  }

  /** The multipart photo of `checkoutComFoto`: missing, empty, or with content. */
  datatype ParteFoto = Ausente | Vazia | ComConteudo

  /** The controller's answers: 400 with no body, 204, or the service's error for the exception handler. */
  datatype Resposta = RequisicaoInvalida | SemConteudo | Erro(mensagem: string)

  class AgendamentoController {
    const agendamentoService: AgendamentoService
    const avaliacaoRepository: AvaliacaoRepository

    constructor (agendamentoService: AgendamentoService, avaliacaoRepository: AvaliacaoRepository)
      ensures this.agendamentoService == agendamentoService && this.avaliacaoRepository == avaliacaoRepository
    {
      this.agendamentoService := agendamentoService;
      this.avaliacaoRepository := avaliacaoRepository;
    }

    /**
     * The loop of `listarMeus` over the bookings the service listed: each
     * gets its annotation, and nothing else about it changes.
     */
    method AnotarAvaliacoes(agendamentos: seq<Agendamento>, agora: Instante)
      modifies set a | a in agendamentos
      ensures forall i :: 0 <= i < |agendamentos| ==>
        Anotacao(agendamentos[i].podeFazerAvaliacao, agendamentos[i].avaliacaoId)
          == AnotacaoDe(agendamentos[i], avaliacaoRepository.PorAgendamento(agendamentos[i].id), agora)
      ensures forall a :: a in agendamentos ==>
        a.Estado() == old(a.Estado()).(podeFazerAvaliacao := a.podeFazerAvaliacao, avaliacaoId := a.avaliacaoId)
    {
      for i := 0 to |agendamentos|
        invariant forall j :: 0 <= j < i ==>
          Anotacao(agendamentos[j].podeFazerAvaliacao, agendamentos[j].avaliacaoId)
            == AnotacaoDe(agendamentos[j], avaliacaoRepository.PorAgendamento(agendamentos[j].id), agora)
        invariant forall a :: a in agendamentos ==>
          a.Estado() == old(a.Estado()).(podeFazerAvaliacao := a.podeFazerAvaliacao, avaliacaoId := a.avaliacaoId)
      {
        Anotar(agendamentos[i], agora);
      }
    }

    /** The body of that loop for one booking. */
    method Anotar(a: Agendamento, agora: Instante)
      modifies a
      ensures Anotacao(a.podeFazerAvaliacao, a.avaliacaoId) == AnotacaoDe(a, avaliacaoRepository.PorAgendamento(a.id), agora)
      ensures a.Estado() == old(a.Estado()).(podeFazerAvaliacao := a.podeFazerAvaliacao, avaliacaoId := a.avaliacaoId)
    {
      if a.status != REALIZADO {
        a.podeFazerAvaliacao := Some(false);
        a.avaliacaoId := None;
        return;
      }
      var avaliacao := avaliacaoRepository.PorAgendamento(a.id);
      if avaliacao.Some? {
        a.avaliacaoId := Some(LongToString(avaliacao.value.id));
        a.podeFazerAvaliacao := Some(false);
      } else {
        var referencia := if a.checkoutEm.Some? then a.checkoutEm.value else a.dataHora;
        a.podeFazerAvaliacao := Some(MaisDias(referencia, DIAS_PARA_AVALIAR) > agora);
        a.avaliacaoId := None;
      }
    }

    /**
     * `checkoutComFoto`: a missing or empty photo is a 400 before the
     * service is called; otherwise the service's check-out decides.
     * `gravacao` is what the media storage does with the photo.
     */
    method CheckoutComFoto(id: int, keycloakId: string, latitude: Option<Coordenada>, longitude: Option<Coordenada>,
                           parte: ParteFoto, gravacao: Foto, agora: Instante) returns (resposta: Resposta)
      requires agendamentoService.Valid()
      requires parte.ComConteudo? ==> !gravacao.SemFoto?
      modifies agendamentoService.agendamentos.Alvo(id)
      ensures agendamentoService.Valid()
      ensures !parte.ComConteudo? ==> resposta == RequisicaoInvalida && unchanged(agendamentoService.agendamentos.Alvo(id))
      ensures parte.ComConteudo? ==>
        var d := old(agendamentoService.Decisao(Operacao.Checkout(latitude, longitude, gravacao), id, keycloakId, agora));
        (d.Failure? ==> resposta == Erro(d.error) && unchanged(agendamentoService.agendamentos.Alvo(id)))
        && (d.Success? ==> resposta == SemConteudo && agendamentoService.agendamentos.linhas[id].Estado() == d.value)
    {
      if !parte.ComConteudo? {
        return RequisicaoInvalida;
      }
      var r := agendamentoService.RegistrarCheckout(id, keycloakId, latitude, longitude, gravacao, agora);
      if r.Failure? {
        return Erro(r.error);
      }
      return SemConteudo;
    }

    /**
     * `buscarPagamento`: the client's own booking, then `criarPagamento`, so
     * reading the payment of a booking that has none creates it.
     */
    method BuscarPagamento(id: int, keycloakId: string, resultadoGateway: Option<AbacatePay.BillingResult>, agora: Instante)
      returns (r: Result<PagamentoEntidade.Pagamento>)
      requires agendamentoService.Valid()
      modifies agendamentoService.pagamentos.repositorio
      ensures agendamentoService.Valid()
      ensures r.Failure? <==> old(agendamentoService.BuscarPorIdDoCliente(id, keycloakId)).Failure?
      ensures r.Failure? ==> (r.error == old(agendamentoService.BuscarPorIdDoCliente(id, keycloakId)).error
        && unchanged(agendamentoService.pagamentos.repositorio))
      ensures r.Success? ==>
        id in agendamentoService.pagamentos.repositorio.porAgendamento
        && r.value == agendamentoService.pagamentos.repositorio.porAgendamento[id]
        && r.value.agendamentoId == id
      ensures r.Success? && id in old(agendamentoService.pagamentos.repositorio.porAgendamento) ==>
        r.value == old(agendamentoService.pagamentos.repositorio.porAgendamento[id]) && unchanged(r.value)
        && agendamentoService.pagamentos.repositorio.porAgendamento == old(agendamentoService.pagamentos.repositorio.porAgendamento)
        && agendamentoService.pagamentos.repositorio.proximoId == old(agendamentoService.pagamentos.repositorio.proximoId)
      ensures r.Success? && id !in old(agendamentoService.pagamentos.repositorio.porAgendamento) ==>
        fresh(r.value)
        && agendamentoService.pagamentos.repositorio.porAgendamento
           == old(agendamentoService.pagamentos.repositorio.porAgendamento)[id := r.value]
        && r.value.id == old(agendamentoService.pagamentos.repositorio.proximoId)
        && agendamentoService.pagamentos.repositorio.proximoId == old(agendamentoService.pagamentos.repositorio.proximoId) + 1
        && PagamentoServico.PagamentoNovo(r.value, id, old(agendamentoService.BuscarPorIdDoCliente(id, keycloakId)).value.formaPagamento,
                                          resultadoGateway, agora)
    {
      var a := agendamentoService.BuscarPorIdDoCliente(id, keycloakId);
      if a.Failure? {
        return Failure(a.error);
      }
      var p := agendamentoService.pagamentos.CriarPagamento(a.value, resultadoGateway, agora);
      return Success(p);
    }
  }
}
