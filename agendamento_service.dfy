/**
 * The booking service: creation with its validation chain, and the guarded
 * transitions (accept, refuse, cancel, the two payment confirmations,
 * check-in and check-out) applied in place to the stored booking.
 *
 * Each transition is specified by `Decisao`, a pure reading of the tables
 * that says which error the call raises or which state the booking ends in;
 * the lemmas at the end of the module state the lifecycle in its terms.
 */
module AgendamentoServico {
  import opened Wrappers
  import opened Tempo
  import opened Texto
  import opened Dominio
  import opened AgendamentoEntidade
  import PagamentoEntidade
  import opened AbacatePay
  import opened PagamentoServico

  const AGENDAMENTO_NAO_ENCONTRADO: string := "Agendamento não encontrado."
  const CLIENTE_NAO_ENCONTRADO: string := "Cliente não encontrado para o usuário logado."
  const PRESTADOR_NAO_ENCONTRADO: string := "Prestador não encontrado."
  const ANTECEDENCIA_INSUFICIENTE: string := "O agendamento deve ser criado com pelo menos 30 minutos de antecedência."
  const SEM_ENDERECO: string := "Cliente e prestador devem possuir endereço cadastrado."
  const OUTRA_CIDADE: string := "O prestador não atende na cidade do cliente. Cidade do cliente: "
  const FORA_DA_DISPONIBILIDADE: string := "O horário escolhido não está dentro da disponibilidade do prestador."
  const HORARIO_OCUPADO: string := "Já existe um agendamento para este horário com o prestador."
  const SOMENTE_PENDENTES_ACEITOS: string := "Somente agendamentos pendentes podem ser aceitos."
  const SOMENTE_PENDENTES_RECUSADOS: string := "Somente agendamentos pendentes podem ser recusados."
  const NAO_CANCELA_REALIZADO: string := "Não é possível cancelar um agendamento realizado."
  const SOMENTE_CONFIRMADOS_CHECKIN: string := "Somente agendamentos confirmados podem receber check-in."
  const CHECKIN_REPETIDO: string := "Check-in já foi realizado."
  const CHECKIN_AUSENTE: string := "É necessário realizar o check-in antes do checkout."
  const CHECKOUT_REPETIDO: string := "Checkout já foi realizado."
  const ERRO_FOTO: string := "Erro ao salvar foto do trabalho: "

  /** The minimum lead time of a new booking, in minutes. */
  const ANTECEDENCIA_MINUTOS: int := 30

  /** The request body of a new booking. */
  datatype DadosAgendamento = DadosAgendamento(
    prestadorId: int,
    dataHora: Instante,
    formaPagamento: FormaPagamento,
    observacao: Option<string>)

  /**
   * What became of the work photo of a check-out: none sent (null or empty
   * part), stored under a path, refused by the storage with its own
   * `IllegalArgumentException`, or lost to an `IOException` with its message.
   */
  datatype Foto = SemFoto | FotoSalva(caminho: string) | FotoRecusada(motivo: string) | FalhaDeGravacao(mensagem: string)

  /** The operations on an existing booking. */
  datatype Operacao =
    | Aceitar
    | Recusar
    | Cancelar
    | ConfirmarPeloCliente
    | ConfirmarPeloWebhook
    | Checkin(latitude: Option<Coordenada>, longitude: Option<Coordenada>)
    | Checkout(latitude: Option<Coordenada>, longitude: Option<Coordenada>, foto: Foto)

  /** The operations the booking's provider performs; the others belong to its client. */
  predicate PeloPrestador(op: Operacao)
  {
    op.Aceitar? || op.Recusar? || op.Checkin? || op.Checkout?
  }

  /** The ownership error of each operation (`validarPrestador`/`validarCliente` or the inline checks). */
  function MensagemDeDono(op: Operacao): string
  {
    match op
    case Aceitar => "Somente o prestador do agendamento pode aceitá-lo."
    case Recusar => "Somente o prestador do agendamento pode recusá-lo."
    case Cancelar => "Somente o cliente do agendamento pode cancelar."
    case Checkin(_, _) => "Somente o prestador do agendamento pode executar esta ação."
    case Checkout(_, _, _) => "Somente o prestador do agendamento pode executar esta ação."
    case _ => "Somente o cliente do agendamento pode executar esta ação."
  }

  /** The day's slots contain the time of day: start included, end excluded. */
  predicate DentroDeAlgumSlot(slots: seq<Disponibilidade>, hora: int)
  {
    exists d :: d in slots && d.horaInicio <= hora < d.horaFim
  }

  /** `!slots.isEmpty() && slots.stream().anyMatch(...)`, written as the stream walks the list. */
  function AlgumSlotContem(slots: seq<Disponibilidade>, hora: int): (r: bool)
    ensures r <==> DentroDeAlgumSlot(slots, hora)
    ensures r ==> slots != []
  {
    if slots == [] then false
    else (slots[0].horaInicio <= hora < slots[0].horaFim) || AlgumSlotContem(slots[1..], hora)
  }

  /** The client's city matches the provider's, ignoring case; a null client city never matches. */
  predicate MesmaCidade(cliente: Endereco, prestador: Endereco)
  {
    cliente.cidade.Some? && prestador.cidade.Some? && EqualsIgnoreCase(cliente.cidade.value, prestador.cidade.value)
  }

  /** Java's string concatenation of a possibly null string. */
  function TextoOuNull(s: Option<string>): string
  {
    if s.Some? then s.value else "null"
  }

  /**
   * The state change of each operation once the booking is found and the
   * caller owns it: the status guards, then the writes.
   */
  function Passo(op: Operacao, e: EstadoAgendamento, forma: FormaPagamento, agora: Instante): Result<EstadoAgendamento>
  {
    match op
    case Aceitar =>
      if e.status != PENDENTE then Failure(SOMENTE_PENDENTES_ACEITOS)
      else if forma == DINHEIRO then Success(e.(status := CONFIRMADO, confirmadoEm := Some(agora)))
      else Success(e.(status := ACEITO))
    case Recusar =>
      if e.status != PENDENTE then Failure(SOMENTE_PENDENTES_RECUSADOS)
      else Success(e.(status := RECUSADO))
    case Cancelar =>
      if e.status == REALIZADO then Failure(NAO_CANCELA_REALIZADO)
      else Success(e.(status := CANCELADO))
    case ConfirmarPeloCliente =>
      Success(e.(status := CONFIRMADO, confirmadoEm := Some(agora)))
    case ConfirmarPeloWebhook =>
      if e.status != ACEITO then Success(e)
      else Success(e.(status := CONFIRMADO, confirmadoEm := Some(agora)))
    case Checkin(lat, lon) =>
      if e.status != CONFIRMADO then Failure(SOMENTE_CONFIRMADOS_CHECKIN)
      else if e.checkinEm.Some? then Failure(CHECKIN_REPETIDO)
      else Success(e.(checkinEm := Some(agora), checkinLatitude := lat, checkinLongitude := lon))
    case Checkout(lat, lon, foto) =>
      if e.checkinEm.None? then Failure(CHECKIN_AUSENTE)
      else if e.checkoutEm.Some? then Failure(CHECKOUT_REPETIDO)
      else match foto
        case FotoRecusada(motivo) => Failure(motivo)
        case FalhaDeGravacao(mensagem) => Failure(ERRO_FOTO + mensagem)
        case _ =>
          Success(e.(fotoTrabalhoUrl := if foto.FotoSalva? then Some(foto.caminho) else e.fotoTrabalhoUrl,
                     checkoutEm := Some(agora), checkoutLatitude := lat, checkoutLongitude := lon,
                     status := REALIZADO))
  }

  class AgendamentoService {
    const clientes: ClienteRepository
    const prestadores: PrestadorRepository
    const agendamentos: AgendamentoRepository
    const disponibilidades: DisponibilidadeRepository
    const pagamentos: PagamentoService

    ghost predicate Valid()
      reads this, clientes, prestadores, agendamentos, pagamentos, pagamentos.repositorio
    {
      clientes.Valid() && prestadores.Valid() && agendamentos.Valid() && pagamentos.repositorio.Valid()
    }

    constructor (clientes: ClienteRepository, prestadores: PrestadorRepository, agendamentos: AgendamentoRepository,
                 disponibilidades: DisponibilidadeRepository, pagamentos: PagamentoService)
      ensures this.clientes == clientes && this.prestadores == prestadores && this.agendamentos == agendamentos
      ensures this.disponibilidades == disponibilidades && this.pagamentos == pagamentos
    {
      this.clientes := clientes;
      this.prestadores := prestadores;
      this.agendamentos := agendamentos;
      this.disponibilidades := disponibilidades;
      this.pagamentos := pagamentos;
    }

    /**
     * The validation chain of `criar`, in the source's order: the first rule
     * broken names the error; otherwise the client and provider to book.
     */
    function Validacao(clienteKeycloakId: string, dados: DadosAgendamento, agora: Instante): (r: Result<(Cliente, Prestador)>)
      reads this, clientes, prestadores, disponibilidades, agendamentos, agendamentos.linhas.Values
      ensures r.Success? <==>
        var c := ClientePorKeycloak(clientes.clientes, clienteKeycloakId);
        var p := PrestadorPorId(prestadores.prestadores, dados.prestadorId);
        c.Some? && p.Some?
        && dados.dataHora >= MaisMinutos(agora, ANTECEDENCIA_MINUTOS)
        && c.value.endereco.Some? && p.value.endereco.Some?
        && MesmaCidade(c.value.endereco.value, p.value.endereco.value)
        && DentroDeAlgumSlot(disponibilidades.DoDia(p.value.id, DiaDaSemana(dados.dataHora)), HoraDoDia(dados.dataHora))
        && !agendamentos.ExisteEntre(p.value.id, dados.dataHora, dados.dataHora, STATUS_QUE_BLOQUEIAM)
      ensures r.Success? ==>
        Some(r.value.0) == ClientePorKeycloak(clientes.clientes, clienteKeycloakId)
        && Some(r.value.1) == PrestadorPorId(prestadores.prestadores, dados.prestadorId)
    {
      match ClientePorKeycloak(clientes.clientes, clienteKeycloakId)
      case None => Failure(CLIENTE_NAO_ENCONTRADO)
      case Some(cliente) =>
        match PrestadorPorId(prestadores.prestadores, dados.prestadorId)
        case None => Failure(PRESTADOR_NAO_ENCONTRADO)
        case Some(prestador) =>
          if dados.dataHora < MaisMinutos(agora, ANTECEDENCIA_MINUTOS) then Failure(ANTECEDENCIA_INSUFICIENTE)
          else if cliente.endereco.None? || prestador.endereco.None? then Failure(SEM_ENDERECO)
          else if !MesmaCidade(cliente.endereco.value, prestador.endereco.value) then
            Failure(OUTRA_CIDADE + TextoOuNull(cliente.endereco.value.cidade))
          else if !AlgumSlotContem(disponibilidades.DoDia(prestador.id, DiaDaSemana(dados.dataHora)), HoraDoDia(dados.dataHora)) then
            Failure(FORA_DA_DISPONIBILIDADE)
          else if agendamentos.ExisteEntre(prestador.id, dados.dataHora, dados.dataHora, STATUS_QUE_BLOQUEIAM) then
            Failure(HORARIO_OCUPADO)
          else Success((cliente, prestador))
    }

    /**
     * `criar`: on success a new PENDENTE booking under the next id, priced at
     * the provider's current price and served at a copy of the client's address.
     * `dados.dataHora` is in the future, as the request's validation demands.
     */
    method Criar(clienteKeycloakId: string, dados: DadosAgendamento, agora: Instante) returns (r: Result<Agendamento>)
      requires Valid()
      // The request body is validated before the service runs: the date must lie in the future (`@Future`).
      requires dados.dataHora > agora
      modifies agendamentos
      ensures Valid()
      ensures r.Failure? ==>
        old(Validacao(clienteKeycloakId, dados, agora)).Failure?
        && r.error == old(Validacao(clienteKeycloakId, dados, agora)).error
        && agendamentos.linhas == old(agendamentos.linhas) && agendamentos.proximoId == old(agendamentos.proximoId)
      ensures r.Success? ==>
        var v := old(Validacao(clienteKeycloakId, dados, agora));
        var a := r.value;
        v.Success? && fresh(a)
        && a.id == old(agendamentos.proximoId) && agendamentos.proximoId == old(agendamentos.proximoId) + 1
        && agendamentos.linhas == old(agendamentos.linhas)[a.id := a]
        && a.cliente == Some(v.value.0) && a.prestador == Some(v.value.1)
        && a.dataHora == dados.dataHora && a.formaPagamento == dados.formaPagamento && a.observacao == dados.observacao
        && a.valorServico == v.value.1.valorServico && a.endereco == v.value.0.endereco
        && a.Estado() == EstadoAgendamento(PENDENTE, Some(agora), None, None, None, None, None, None, None, None, None, None)
    {
      var v := Validacao(clienteKeycloakId, dados, agora);
      if v.Failure? {
        return Failure(v.error);
      }
      var (cliente, prestador) := v.value;
      var a := new Agendamento(agendamentos.proximoId, Some(cliente), Some(prestador), dados.dataHora, PENDENTE,
                               dados.formaPagamento, prestador.valorServico, dados.observacao, cliente.endereco);
      a.PrePersist(agora);
      agendamentos.linhas := agendamentos.linhas[a.id := a];
      agendamentos.proximoId := agendamentos.proximoId + 1;
      return Success(a);
    }

    /** `buscarPorId`. */
    function BuscarPorId(id: int): (r: Result<Agendamento>)
      reads this, agendamentos
      ensures r.Success? <==> id in agendamentos.linhas
      ensures r.Success? ==> r.value == agendamentos.linhas[id]
      ensures r.Failure? ==> r.error == AGENDAMENTO_NAO_ENCONTRADO
    {
      if id in agendamentos.linhas then Success(agendamentos.linhas[id]) else Failure(AGENDAMENTO_NAO_ENCONTRADO)
    }

    /** `buscarPorIdDoCliente`: the lookup, then `validarCliente`. */
    function BuscarPorIdDoCliente(id: int, keycloakId: string): (r: Result<Agendamento>)
      requires agendamentos.Valid()
      reads this, agendamentos, clientes, prestadores
      ensures r.Success? <==> (id in agendamentos.linhas
        && exists c :: ClientePorKeycloak(clientes.clientes, keycloakId) == Some(c) && c.id == agendamentos.linhas[id].cliente.value.id)
      ensures r.Success? ==> r.value == agendamentos.linhas[id]
      ensures id !in agendamentos.linhas ==> r == Failure(AGENDAMENTO_NAO_ENCONTRADO)
    {
      if id !in agendamentos.linhas then Failure(AGENDAMENTO_NAO_ENCONTRADO)
      else
        var a := agendamentos.linhas[id];
        match Autorizacao(Operacao.ConfirmarPeloCliente, a, keycloakId)
        case Some(m) => Failure(m)
        case None => Success(a)
    }

    /**
     * The caller check of an operation: the provider or client behind the
     * Keycloak id must exist and be the booking's own; None when it passes.
     */
    function Autorizacao(op: Operacao, a: Agendamento, keycloakId: string): (r: Option<string>)
      requires a.cliente.Some? && a.prestador.Some?
      reads this, clientes, prestadores
      ensures PeloPrestador(op) ==>
        (r.None? <==> exists p :: PrestadorPorKeycloak(prestadores.prestadores, keycloakId) == Some(p) && p.id == a.prestador.value.id)
      ensures !PeloPrestador(op) ==>
        (r.None? <==> exists c :: ClientePorKeycloak(clientes.clientes, keycloakId) == Some(c) && c.id == a.cliente.value.id)
      ensures PeloPrestador(op) && PrestadorPorKeycloak(prestadores.prestadores, keycloakId).None? ==> r == Some(PRESTADOR_NAO_ENCONTRADO)
      ensures !PeloPrestador(op) && ClientePorKeycloak(clientes.clientes, keycloakId).None? ==> r == Some(CLIENTE_NAO_ENCONTRADO)
    {
      if PeloPrestador(op) then
        match PrestadorPorKeycloak(prestadores.prestadores, keycloakId)
        case None => Some(PRESTADOR_NAO_ENCONTRADO)
        case Some(p) => if p.id != a.prestador.value.id then Some(MensagemDeDono(op)) else None
      else
        match ClientePorKeycloak(clientes.clientes, keycloakId)
        case None => Some(CLIENTE_NAO_ENCONTRADO)
        case Some(c) => if c.id != a.cliente.value.id then Some(MensagemDeDono(op)) else None
    }

    /**
     * The outcome of an operation requested by `keycloakId` on booking `id`:
     * the lookup, then the caller check, then the status guards.
     */
    function Decisao(op: Operacao, id: int, keycloakId: string, agora: Instante): (r: Result<EstadoAgendamento>)
      requires agendamentos.Valid()
      reads this, agendamentos, agendamentos.linhas.Values, clientes, prestadores
      ensures id !in agendamentos.linhas ==> r == Failure(AGENDAMENTO_NAO_ENCONTRADO)
      ensures id in agendamentos.linhas && Autorizacao(op, agendamentos.linhas[id], keycloakId).Some? ==>
        r == Failure(Autorizacao(op, agendamentos.linhas[id], keycloakId).value)
      ensures id in agendamentos.linhas && Autorizacao(op, agendamentos.linhas[id], keycloakId).None? ==>
        r == Passo(op, agendamentos.linhas[id].Estado(), agendamentos.linhas[id].formaPagamento, agora)
    {
      if id !in agendamentos.linhas then Failure(AGENDAMENTO_NAO_ENCONTRADO)
      else
        var a := agendamentos.linhas[id];
        match Autorizacao(op, a, keycloakId)
        case Some(m) => Failure(m)
        case None => Passo(op, a.Estado(), a.formaPagamento, agora)
    }

    /**
     * `aceitar`: the booking's provider accepts a pending booking; its payment
     * is created (get-or-create) with `resultadoGateway` standing for the
     * gateway's answer, and a cash booking is confirmed at once.
     */
    method Aceitar(id: int, prestadorKeycloakId: string, resultadoGateway: Option<BillingResult>, agora: Instante)
      returns (r: Result<Agendamento>)
      requires Valid()
      modifies agendamentos.Alvo(id), pagamentos.repositorio
      ensures Valid()
      ensures Resultado(r, old(Decisao(Operacao.Aceitar, id, prestadorKeycloakId, agora)), old(agendamentos.Alvo(id)))
      ensures r.Success? && id in old(pagamentos.repositorio.porAgendamento) ==>
        pagamentos.repositorio.porAgendamento == old(pagamentos.repositorio.porAgendamento)
        && pagamentos.repositorio.proximoId == old(pagamentos.repositorio.proximoId)
        && pagamentos.repositorio.porAgendamento[id].Estado() == old(pagamentos.repositorio.porAgendamento[id].Estado())
      ensures r.Success? ==> id in pagamentos.repositorio.porAgendamento
      ensures r.Success? && id !in old(pagamentos.repositorio.porAgendamento) ==>
        var p := pagamentos.repositorio.porAgendamento[id];
        fresh(p) && pagamentos.repositorio.porAgendamento == old(pagamentos.repositorio.porAgendamento)[id := p]
        && p.id == old(pagamentos.repositorio.proximoId)
        && pagamentos.repositorio.proximoId == old(pagamentos.repositorio.proximoId) + 1
        && PagamentoNovo(p, id, r.value.formaPagamento, resultadoGateway, agora)
      ensures r.Failure? ==>
        pagamentos.repositorio.porAgendamento == old(pagamentos.repositorio.porAgendamento)
        && pagamentos.repositorio.proximoId == old(pagamentos.repositorio.proximoId)
    {
      var d := Decisao(Operacao.Aceitar, id, prestadorKeycloakId, agora);
      if d.Failure? {
        return Failure(d.error);
      }
      var a := agendamentos.linhas[id];
      a.Aceitar();
      var _ := pagamentos.CriarPagamento(a, resultadoGateway, agora);
      if a.formaPagamento == DINHEIRO {
        a.Confirmar(agora);
      }
      return Success(a);
    }

    /** `recusar`: the booking's provider refuses a pending booking. */
    method Recusar(id: int, prestadorKeycloakId: string, agora: Instante) returns (r: Result<Agendamento>)
      requires Valid()
      modifies agendamentos.Alvo(id)
      ensures Valid()
      ensures Resultado(r, old(Decisao(Operacao.Recusar, id, prestadorKeycloakId, agora)), old(agendamentos.Alvo(id)))
    {
      var d := Decisao(Operacao.Recusar, id, prestadorKeycloakId, agora);
      if d.Failure? {
        return Failure(d.error);
      }
      var a := agendamentos.linhas[id];
      a.Recusar();
      return Success(a);
    }

    /** `cancelar`: the booking's client cancels anything not yet done; the payment is left as it is. */
    method Cancelar(id: int, clienteKeycloakId: string, agora: Instante) returns (r: Result<Agendamento>)
      requires Valid()
      modifies agendamentos.Alvo(id)
      ensures Valid()
      ensures Resultado(r, old(Decisao(Operacao.Cancelar, id, clienteKeycloakId, agora)), old(agendamentos.Alvo(id)))
    {
      var d := Decisao(Operacao.Cancelar, id, clienteKeycloakId, agora);
      if d.Failure? {
        return Failure(d.error);
      }
      var a := agendamentos.linhas[id];
      a.Cancelar();
      return Success(a);
    }

    /**
     * `confirmarPagamento`: the booking's client confirms; the payment must
     * exist and is confirmed first, then the booking, whatever its status.
     */
    method ConfirmarPagamento(id: int, clienteKeycloakId: string, agora: Instante) returns (r: Result<Agendamento>)
      requires Valid()
      modifies agendamentos.Alvo(id), pagamentos.repositorio.Alvo(id)
      ensures Valid()
      ensures old(Decisao(Operacao.ConfirmarPeloCliente, id, clienteKeycloakId, agora)).Success?
              && id !in pagamentos.repositorio.porAgendamento ==>
        r == Failure(PAGAMENTO_NAO_ENCONTRADO) && unchanged(agendamentos.Alvo(id))
      ensures old(Decisao(Operacao.ConfirmarPeloCliente, id, clienteKeycloakId, agora)).Failure? || id in pagamentos.repositorio.porAgendamento ==>
        Resultado(r, old(Decisao(Operacao.ConfirmarPeloCliente, id, clienteKeycloakId, agora)), old(agendamentos.Alvo(id)))
      ensures r.Success? ==> id in pagamentos.repositorio.porAgendamento && PagamentoConfirmado(old(pagamentos.repositorio.Alvo(id)), agora)
      ensures r.Failure? ==> unchanged(pagamentos.repositorio.Alvo(id))
    {
      var d := Decisao(Operacao.ConfirmarPeloCliente, id, clienteKeycloakId, agora);
      if d.Failure? {
        return Failure(d.error);
      }
      var p := pagamentos.ConfirmarPagamento(id, agora);
      if p.Failure? {
        return Failure(p.error);
      }
      var a := agendamentos.linhas[id];
      a.Confirmar(agora);
      return Success(a);
    }

    /**
     * `confirmarPagamentoPorIdAgendamento`, the gateway callback: only an
     * ACEITO booking changes, and then only once its payment is confirmed.
     * None is a normal return, Some the error raised.
     */
    method ConfirmarPagamentoPorIdAgendamento(id: int, agora: Instante) returns (erro: Option<string>)
      requires Valid()
      modifies agendamentos.Alvo(id), pagamentos.repositorio.Alvo(id)
      ensures Valid()
      ensures id !in agendamentos.linhas ==> erro == Some(AGENDAMENTO_NAO_ENCONTRADO)
      ensures ConfirmadoPeloGateway(id, agora)
      ensures id in agendamentos.linhas && old(agendamentos.linhas[id].status) != ACEITO ==>
        erro.None? && unchanged(agendamentos.Alvo(id)) && unchanged(pagamentos.repositorio.Alvo(id))
      ensures id in agendamentos.linhas && old(agendamentos.linhas[id].status) == ACEITO && id !in pagamentos.repositorio.porAgendamento ==>
        erro == Some(PAGAMENTO_NAO_ENCONTRADO) && unchanged(agendamentos.Alvo(id))
      ensures id in agendamentos.linhas && old(agendamentos.linhas[id].status) == ACEITO && id in pagamentos.repositorio.porAgendamento ==>
        erro.None? && id in pagamentos.repositorio.porAgendamento && PagamentoConfirmado(old(pagamentos.repositorio.Alvo(id)), agora)
        && agendamentos.linhas[id].Estado()
           == Passo(Operacao.ConfirmarPeloWebhook, old(agendamentos.linhas[id].Estado()), agendamentos.linhas[id].formaPagamento, agora).value
    {
      if id !in agendamentos.linhas {
        return Some(AGENDAMENTO_NAO_ENCONTRADO);
      }
      var a := agendamentos.linhas[id];
      if a.status != ACEITO {
        return None;
      }
      var p := pagamentos.ConfirmarPagamento(id, agora);
      if p.Failure? {
        return Some(p.error);
      }
      a.Confirmar(agora);
      return None;
    }

    /** `registrarCheckin`: the provider arrives at a confirmed booking, once. */
    method RegistrarCheckin(id: int, prestadorKeycloakId: string, latitude: Option<Coordenada>,
                            longitude: Option<Coordenada>, agora: Instante) returns (r: Result<Agendamento>)
      requires Valid()
      modifies agendamentos.Alvo(id)
      ensures Valid()
      ensures Resultado(r, old(Decisao(Operacao.Checkin(latitude, longitude), id, prestadorKeycloakId, agora)), old(agendamentos.Alvo(id)))
    {
      var d := Decisao(Operacao.Checkin(latitude, longitude), id, prestadorKeycloakId, agora);
      if d.Failure? {
        return Failure(d.error);
      }
      var a := agendamentos.linhas[id];
      a.checkinEm := Some(agora);
      a.checkinLatitude := latitude;
      a.checkinLongitude := longitude;
      return Success(a);
    }

    /**
     * `registrarCheckoutComFoto` (and `registrarCheckout`, which passes no
     * photo): after a check-in, once; the photo's path is kept when it was
     * stored, and the booking becomes REALIZADO.
     */
    method RegistrarCheckout(id: int, prestadorKeycloakId: string, latitude: Option<Coordenada>,
                             longitude: Option<Coordenada>, foto: Foto, agora: Instante) returns (r: Result<Agendamento>)
      requires Valid()
      modifies agendamentos.Alvo(id)
      ensures Valid()
      ensures Resultado(r, old(Decisao(Operacao.Checkout(latitude, longitude, foto), id, prestadorKeycloakId, agora)), old(agendamentos.Alvo(id)))
    {
      var d := Decisao(Operacao.Checkout(latitude, longitude, foto), id, prestadorKeycloakId, agora);
      if d.Failure? {
        return Failure(d.error);
      }
      var a := agendamentos.linhas[id];
      GravarCheckout(a, latitude, longitude, foto);
      a.checkoutEm := Some(agora);
      a.MarcarRealizado();
      return Success(a);
    }

    /** The photo's path, when it was stored, and the check-out position. */
    static method GravarCheckout(a: Agendamento, latitude: Option<Coordenada>, longitude: Option<Coordenada>, foto: Foto)
      modifies a
      ensures a.Estado() == old(a.Estado()).(fotoTrabalhoUrl := if foto.FotoSalva? then Some(foto.caminho) else old(a.fotoTrabalhoUrl),
                                             checkoutLatitude := latitude, checkoutLongitude := longitude)
    {
      if foto.FotoSalva? {
        a.fotoTrabalhoUrl := Some(foto.caminho);
      }
      a.checkoutLatitude := latitude;
      a.checkoutLongitude := longitude;
    }

    /**
     * How a transition method's outcome matches its decision: the same error
     * with the booking untouched, or the stored booking in the decided state.
     */
    twostate predicate Resultado(new r: Result<Agendamento>, d: Result<EstadoAgendamento>, alvo: set<Agendamento>)
      reads alvo
    {
      (r.Failure? <==> d.Failure?)
      && (r.Failure? ==> r.error == d.error && unchanged(alvo))
      && (r.Success? ==> r.value in alvo && r.value.Estado() == d.value)
    }

    /** The booking's payment is in the state `confirmarPagamento` leaves. */
    twostate predicate PagamentoConfirmado(alvo: set<PagamentoEntidade.Pagamento>, agora: Instante)
      reads alvo
    {
      forall p :: p in alvo ==> p.Estado() == EstadoConfirmado(old(p.Estado()), agora)
    }

    /**
     * The tables after the gateway's confirmation of booking `id`: no row is
     * added or removed; an ACEITO booking that has a payment is confirmed
     * together with its payment; every other booking and payment is as it was.
     */
    twostate predicate ConfirmadoPeloGateway(id: int, agora: Instante)
      reads this, agendamentos, pagamentos, pagamentos.repositorio
      reads agendamentos.linhas.Values, pagamentos.repositorio.porAgendamento.Values
    {
      var confirma := id in old(agendamentos.linhas) && old(agendamentos.linhas[id].status) == ACEITO
                      && id in pagamentos.repositorio.porAgendamento;
      && agendamentos.linhas == old(agendamentos.linhas)
      && pagamentos.repositorio.porAgendamento == old(pagamentos.repositorio.porAgendamento)
      && (confirma ==>
            agendamentos.linhas[id].Estado()
            == Passo(Operacao.ConfirmarPeloWebhook, old(agendamentos.linhas[id].Estado()), agendamentos.linhas[id].formaPagamento, agora).value
            && pagamentos.repositorio.porAgendamento[id].Estado()
               == EstadoConfirmado(old(pagamentos.repositorio.porAgendamento[id].Estado()), agora))
      && (forall k :: k in agendamentos.linhas && (k != id || !confirma) ==>
            agendamentos.linhas[k].Estado() == old(agendamentos.linhas[k].Estado()))
      && (forall k :: k in pagamentos.repositorio.porAgendamento && (k != id || !confirma) ==>
            pagamentos.repositorio.porAgendamento[k].Estado() == old(pagamentos.repositorio.porAgendamento[k].Estado()))
    }
  }

  /** `aceitar` succeeds on PENDENTE only, ending ACEITO for online and CONFIRMADO for cash payment. */
  lemma AceitarSomentePendente(e: EstadoAgendamento, forma: FormaPagamento, agora: Instante)
    ensures Passo(Aceitar, e, forma, agora).Success? <==> e.status == PENDENTE
    ensures Passo(Aceitar, e, forma, agora).Success? ==>
      Passo(Aceitar, e, forma, agora).value.status == (if forma == DINHEIRO then CONFIRMADO else ACEITO)
  {
  }

  /** `recusar` succeeds on PENDENTE only and ends RECUSADO. */
  lemma RecusarSomentePendente(e: EstadoAgendamento, agora: Instante, forma: FormaPagamento)
    ensures Passo(Recusar, e, forma, agora).Success? <==> e.status == PENDENTE
    ensures Passo(Recusar, e, forma, agora).Success? ==> Passo(Recusar, e, forma, agora).value == e.(status := RECUSADO)
  {
  }

  /** `cancelar` refuses REALIZADO only; every other status, CANCELADO and RECUSADO included, becomes CANCELADO. */
  lemma CancelarExcetoRealizado(e: EstadoAgendamento, agora: Instante, forma: FormaPagamento)
    ensures Passo(Cancelar, e, forma, agora).Failure? <==> e.status == REALIZADO
    ensures e.status != REALIZADO ==> Passo(Cancelar, e, forma, agora) == Success(e.(status := CANCELADO))
  {
  }

  /** A repeated gateway callback changes nothing: after the first, the booking is no longer ACEITO. */
  lemma WebhookIdempotente(e: EstadoAgendamento, forma: FormaPagamento, agora1: Instante, agora2: Instante)
    ensures var e1 := Passo(ConfirmarPeloWebhook, e, forma, agora1).value;
      Passo(ConfirmarPeloWebhook, e1, forma, agora2) == Success(e1)
  {
  }

  /** The client's confirmation has no status guard: even a finished booking goes back to CONFIRMADO. */
  lemma ConfirmacaoDoClienteSemGuarda(e: EstadoAgendamento, forma: FormaPagamento, agora: Instante)
    requires e.status == REALIZADO
    ensures Passo(ConfirmarPeloCliente, e, forma, agora).Success?
    ensures Passo(ConfirmarPeloCliente, e, forma, agora).value.status == CONFIRMADO
  {
  }

  /** Check-in succeeds at most once: after a successful one, a second is refused. */
  lemma CheckinUmaVez(e: EstadoAgendamento, forma: FormaPagamento, lat: Option<Coordenada>, lon: Option<Coordenada>,
                      agora1: Instante, agora2: Instante)
    requires Passo(Checkin(lat, lon), e, forma, agora1).Success?
    ensures Passo(Checkin(lat, lon), Passo(Checkin(lat, lon), e, forma, agora1).value, forma, agora2) == Failure(CHECKIN_REPETIDO)
  {
  }

  /** Check-out succeeds at most once, and it is the only step that yields REALIZADO. */
  lemma CheckoutUmaVez(e: EstadoAgendamento, forma: FormaPagamento, lat: Option<Coordenada>, lon: Option<Coordenada>,
                       foto: Foto, agora1: Instante, agora2: Instante)
    requires Passo(Checkout(lat, lon, foto), e, forma, agora1).Success?
    ensures Passo(Checkout(lat, lon, foto), e, forma, agora1).value.status == REALIZADO
    ensures Passo(Checkout(lat, lon, foto), Passo(Checkout(lat, lon, foto), e, forma, agora1).value, forma, agora2)
            == Failure(CHECKOUT_REPETIDO)
  {
  }

  /** REALIZADO is reached only by a check-out, and only after a check-in. */
  lemma RealizadoSomentePorCheckout(op: Operacao, e: EstadoAgendamento, forma: FormaPagamento, agora: Instante)
    requires e.status != REALIZADO
    requires Passo(op, e, forma, agora).Success? && Passo(op, e, forma, agora).value.status == REALIZADO
    ensures op.Checkout? && e.checkinEm.Some?
  {
  }

  /**
   * Check-out does not look at the status: a booking checked in and then
   * cancelled by its client can still be checked out, and ends REALIZADO.
   */
  lemma CanceladoViraRealizado(e: EstadoAgendamento, forma: FormaPagamento, lat: Option<Coordenada>, lon: Option<Coordenada>,
                               t1: Instante, t2: Instante, t3: Instante)
    requires e.status == CONFIRMADO && e.checkinEm.None? && e.checkoutEm.None?
    ensures var e1 := Passo(Checkin(lat, lon), e, forma, t1).value;
      var e2 := Passo(Cancelar, e1, forma, t2).value;
      e2.status == CANCELADO && Passo(Checkout(lat, lon, SemFoto), e2, forma, t3).Success?
      && Passo(Checkout(lat, lon, SemFoto), e2, forma, t3).value.status == REALIZADO
  {
  }

  /** The conflict query `BETWEEN t AND t` is an exact-time match on a live booking of that provider. */
  lemma ConflitoNoMesmoHorario(r: AgendamentoRepository, prestadorId: int, t: Instante)
    ensures r.ExisteEntre(prestadorId, t, t, STATUS_QUE_BLOQUEIAM) <==>
      exists k :: k in r.linhas && r.linhas[k].PrestadorId() == Some(prestadorId) && r.linhas[k].dataHora == t
        && r.linhas[k].status in {PENDENTE, ACEITO, CONFIRMADO}
  {
  }
}
