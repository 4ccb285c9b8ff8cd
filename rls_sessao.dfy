/**
 * The row-level-security session set-up run before each transactional
 * service method: the three session variables the database policies read are
 * reset, then set according to the caller's user type, resolving the
 * caller's internal id once and caching it in the request's context.
 */
module RlsSessao {
  import opened Wrappers
  import opened Numeros
  import opened ContextoUsuario
  import ClienteServico
  import PrestadorServico

  /** The session variables the row-level-security policies read. */
  datatype Variavel = ClienteAtual | PrestadorAtual | PapelAtual

  function NomeDaVariavel(v: Variavel): string
  {
    match v
    case ClienteAtual => "app.current_cliente_id"
    case PrestadorAtual => "app.current_prestador_id"
    case PapelAtual => "app.current_role"
  }

  /** One statement on the connection. */
  datatype Comando = Reset(variavel: Variavel) | Definir(variavel: Variavel, valor: string)

  /** The SQL text of a statement. */
  function Sql(c: Comando): string
  {
    match c
    case Reset(v) => "RESET LOCAL " + NomeDaVariavel(v)
    case Definir(v, valor) => "SET LOCAL " + NomeDaVariavel(v) + " = '" + valor + "'"
  }

  /** Always issued first, whatever the user type. */
  const RESETS: seq<Comando> := [Reset(ClienteAtual), Reset(PrestadorAtual), Reset(PapelAtual)]

  /** The statements that follow the resets, for a user type whose internal id is `id`. */
  function ComandosDoPapel(t: UserType, id: int): seq<Comando>
  {
    match t
    case ADMIN => [Definir(PapelAtual, "ADMIN")]
    case CLIENTE => [Definir(PapelAtual, "CLIENTE"), Definir(ClienteAtual, LongToString(id))]
    case PRESTADOR => [Definir(PapelAtual, "PRESTADOR"), Definir(PrestadorAtual, LongToString(id))]
    case UNKNOWN => []
  }

  /** What the session is left holding: the last value set for `v`, if any after its reset. */
  function ValorFinal(s: seq<Comando>, v: Variavel): (r: Option<string>)
    ensures r.Some? ==> Definir(v, r.value) in s
  {
    if s == [] then None
    else match s[|s| - 1]
      case Definir(w, valor) => if w == v then Some(valor) else ValorFinal(s[..|s| - 1], v)
      case Reset(w) => if w == v then None else ValorFinal(s[..|s| - 1], v)
  }

  /**
   * After the statements for a user type, the session holds exactly the
   * variables that type is entitled to: the role name, and the caller's own id
   * for clients and providers; UNKNOWN leaves every variable unset.
   */
  lemma {:induction false} SessaoResultante(t: UserType, id: int)
    ensures var s := RESETS + ComandosDoPapel(t, id);
      && ValorFinal(s, PapelAtual) == (if t == UNKNOWN then None else Some(NomeDoPapelMaiusculo(t)))
      && ValorFinal(s, ClienteAtual) == (if t == CLIENTE then Some(LongToString(id)) else None)
      && ValorFinal(s, PrestadorAtual) == (if t == PRESTADOR then Some(LongToString(id)) else None)
  {
    var s := RESETS + ComandosDoPapel(t, id);
    var r := RESETS;
    assert r[..2] == [Reset(ClienteAtual), Reset(PrestadorAtual)];
    assert r[..1] == [Reset(ClienteAtual)];
    assert ValorFinal(r[..1], PrestadorAtual) == None by {
      assert r[..1][..0] == [];
    }
    assert ValorFinal(r, ClienteAtual) == None by {
      assert ValorFinal(r[..2], ClienteAtual) == ValorFinal(r[..1], ClienteAtual);
    }
    assert ValorFinal(r, PrestadorAtual) == None;
    assert ValorFinal(r, PapelAtual) == None;
    match t
    case UNKNOWN =>
      assert s == r;
    case ADMIN =>
      assert s[..|s| - 1] == r;
    case CLIENTE =>
      assert s[..|s| - 1] == r + [Definir(PapelAtual, "CLIENTE")];
      assert s[..|s| - 1][..|s| - 2] == r;
    case PRESTADOR =>
      assert s[..|s| - 1] == r + [Definir(PapelAtual, "PRESTADOR")];
      assert s[..|s| - 1][..|s| - 2] == r;
  }

  /** Every reset comes before every SET. */
  lemma ResetsAntesDosSets(t: UserType, id: int)
    ensures var s := RESETS + ComandosDoPapel(t, id);
      forall i, j :: 0 <= i < |s| && 0 <= j < |s| && s[i].Reset? && s[j].Definir? ==> i < j
  {
  }

  /** `buscarPorKeycloakId(...).getId()` on either service, for a subject that may be null. */
  function IdDoCliente(servico: ClienteServico.ClienteService, keycloakId: Option<string>): (r: Result<int>)
    reads servico, servico.repositorio
    ensures keycloakId.Some? ==> (r.Success? <==> servico.BuscarPorKeycloakId(keycloakId.value).Success?)
    ensures r.Success? ==> keycloakId.Some? && r.value == servico.BuscarPorKeycloakId(keycloakId.value).value.id
    ensures r.Failure? ==> r.error == ClienteServico.CLIENTE_NAO_ENCONTRADO
  {
    if keycloakId.None? then Failure(ClienteServico.CLIENTE_NAO_ENCONTRADO)
    else match servico.BuscarPorKeycloakId(keycloakId.value)
      case Success(c) => Success(c.id)
      case Failure(e) => Failure(e)
  }

  function IdDoPrestador(servico: PrestadorServico.PrestadorService, keycloakId: Option<string>): (r: Result<int>)
    reads servico, servico.repositorio
    ensures keycloakId.Some? ==> (r.Success? <==> servico.BuscarPorKeycloakId(keycloakId.value).Success?)
    ensures r.Success? ==> keycloakId.Some? && r.value == servico.BuscarPorKeycloakId(keycloakId.value).value.id
    ensures r.Failure? ==> r.error == PrestadorServico.PRESTADOR_NAO_ENCONTRADO
  {
    if keycloakId.None? then Failure(PrestadorServico.PRESTADOR_NAO_ENCONTRADO)
    else match servico.BuscarPorKeycloakId(keycloakId.value)
      case Success(p) => Success(p.id)
      case Failure(e) => Failure(e)
  }

  /** A cached id wins; only a missing one is looked up. */
  function Resolver(cache: Option<int>, busca: Result<int>): (r: Result<int>)
    ensures cache.Some? ==> r == Success(cache.value)
    ensures cache.None? ==> r == busca
  {
    if cache.Some? then Success(cache.value) else busca
  }

  class RlsSessionAspect {
    const clientes: ClienteServico.ClienteService
    const prestadores: PrestadorServico.PrestadorService
    /** The statements issued on the connection so far. */
    var emitidos: seq<Comando>

    constructor (clientes: ClienteServico.ClienteService, prestadores: PrestadorServico.PrestadorService)
      ensures this.clientes == clientes && this.prestadores == prestadores && emitidos == []
    {
      this.clientes := clientes;
      this.prestadores := prestadores;
      emitidos := [];
    }

    /**
     * The id the statements for `contexto` carry: the cached one, or the one
     * looked up, for clients and providers; admins and unknown users need none.
     */
    function IdDaSessao(contexto: UserContext): (r: Result<int>)
      reads this, contexto, clientes, clientes.repositorio, prestadores, prestadores.repositorio
      ensures contexto.userType == CLIENTE ==> r == Resolver(contexto.clienteId, IdDoCliente(clientes, contexto.keycloakId))
      ensures contexto.userType == PRESTADOR ==>
        r == Resolver(contexto.prestadorId, IdDoPrestador(prestadores, contexto.keycloakId))
      ensures contexto.userType == ADMIN || contexto.userType == UNKNOWN ==> r.Success?
    {
      match contexto.userType
      case CLIENTE => Resolver(contexto.clienteId, IdDoCliente(clientes, contexto.keycloakId))
      case PRESTADOR => Resolver(contexto.prestadorId, IdDoPrestador(prestadores, contexto.keycloakId))
      case _ => Success(0)
    }

    /**
     * `applySessionVariables`: the resets, then the statements for the user
     * type. A failed lookup stops after the resets; a successful one is cached.
     */
    method ApplySessionVariables(contexto: UserContext) returns (r: Result<()>)
      modifies this, contexto
      ensures r.Success? <==> old(IdDaSessao(contexto)).Success?
      ensures r.Failure? ==> (r.error == old(IdDaSessao(contexto)).error
        && emitidos == old(emitidos) + RESETS
        && contexto.clienteId == old(contexto.clienteId) && contexto.prestadorId == old(contexto.prestadorId))
      ensures r.Success? ==>
        var id := old(IdDaSessao(contexto)).value;
        && emitidos == old(emitidos) + RESETS + ComandosDoPapel(contexto.userType, id)
        && contexto.clienteId == (if contexto.userType == CLIENTE then Some(id) else old(contexto.clienteId))
        && contexto.prestadorId == (if contexto.userType == PRESTADOR then Some(id) else old(contexto.prestadorId))
    {
      emitidos := emitidos + RESETS;

      if contexto.IsAdmin() {
        emitidos := emitidos + [Definir(PapelAtual, "ADMIN")];
        return Success(());
      }

      if contexto.IsCliente() {
        r := SessaoDoCliente(contexto);
        return;
      }

      if contexto.IsPrestador() {
        r := SessaoDoPrestador(contexto);
        return;
      }
      return Success(());
    }

    /** The client branch: the cached or looked-up id, cached, then the role and the id. */
    method SessaoDoCliente(contexto: UserContext) returns (r: Result<()>)
      requires contexto.userType == CLIENTE
      modifies this, contexto
      ensures r.Success? <==> old(IdDaSessao(contexto)).Success?
      ensures r.Failure? ==> (r.error == old(IdDaSessao(contexto)).error && emitidos == old(emitidos)
        && contexto.clienteId == old(contexto.clienteId) && contexto.prestadorId == old(contexto.prestadorId))
      ensures r.Success? ==>
        var id := old(IdDaSessao(contexto)).value;
        && emitidos == old(emitidos) + ComandosDoPapel(CLIENTE, id)
        && contexto.clienteId == Some(id) && contexto.prestadorId == old(contexto.prestadorId)
    {
      var clienteId := contexto.clienteId;
      if clienteId.None? {
        var busca := IdDoCliente(clientes, contexto.keycloakId);
        if busca.Failure? {
          return Failure(busca.error);
        }
        clienteId := Some(busca.value);
        contexto.SetClienteId(clienteId);
      }
      emitidos := emitidos + [Definir(PapelAtual, "CLIENTE")];
      emitidos := emitidos + [Definir(ClienteAtual, LongToString(clienteId.value))];
      return Success(());
    }

    /** The provider branch, the same with the provider's id. */
    method SessaoDoPrestador(contexto: UserContext) returns (r: Result<()>)
      requires contexto.userType == PRESTADOR
      modifies this, contexto
      ensures r.Success? <==> old(IdDaSessao(contexto)).Success?
      ensures r.Failure? ==> (r.error == old(IdDaSessao(contexto)).error && emitidos == old(emitidos)
        && contexto.clienteId == old(contexto.clienteId) && contexto.prestadorId == old(contexto.prestadorId))
      ensures r.Success? ==>
        var id := old(IdDaSessao(contexto)).value;
        && emitidos == old(emitidos) + ComandosDoPapel(PRESTADOR, id)
        && contexto.prestadorId == Some(id) && contexto.clienteId == old(contexto.clienteId)
    {
      var prestadorId := contexto.prestadorId;
      if prestadorId.None? {
        var busca := IdDoPrestador(prestadores, contexto.keycloakId);
        if busca.Failure? {
          return Failure(busca.error);
        }
        prestadorId := Some(busca.value);
        contexto.SetPrestadorId(prestadorId);
      }
      emitidos := emitidos + [Definir(PapelAtual, "PRESTADOR")];
      emitidos := emitidos + [Definir(PrestadorAtual, LongToString(prestadorId.value))];
      return Success(());
    }

    /**
     * `applyRlsContext`: with no context nothing is issued; `r.Success?` means
     * the intercepted method goes on to run.
     */
    method ApplyRlsContext(holder: UserContextHolder) returns (r: Result<()>)
      modifies this, if holder.atual.Some? then {holder.atual.value} else {}
      ensures holder.atual.None? ==> r.Success? && emitidos == old(emitidos)
      ensures holder.atual.Some? ==> (r.Success? <==> old(IdDaSessao(holder.atual.value)).Success?)
      ensures holder.atual.Some? && r.Failure? ==>
        var contexto := holder.atual.value;
        r.error == old(IdDaSessao(contexto)).error
        && emitidos == old(emitidos) + RESETS
        && contexto.clienteId == old(contexto.clienteId) && contexto.prestadorId == old(contexto.prestadorId)
      ensures holder.atual.Some? && r.Success? ==>
        var contexto := holder.atual.value;
        var id := old(IdDaSessao(contexto)).value;
        && emitidos == old(emitidos) + RESETS + ComandosDoPapel(contexto.userType, id)
        && contexto.clienteId == (if contexto.userType == CLIENTE then Some(id) else old(contexto.clienteId))
        && contexto.prestadorId == (if contexto.userType == PRESTADOR then Some(id) else old(contexto.prestadorId))
    {
      var contexto := holder.atual;
      if contexto.Some? {
        r := ApplySessionVariables(contexto.value);
        if r.Failure? {
          return r;
        }
      }
      r := Success(());
    }
  }

  /**
   * The id is looked up at most once per request: once it is cached, the
   * statements carry the cached id whatever the tables now say.
   */
  lemma CacheDispensaBusca(aspecto: RlsSessionAspect, contexto: UserContext)
    requires contexto.userType == CLIENTE && contexto.clienteId.Some?
    ensures aspecto.IdDaSessao(contexto) == Success(contexto.clienteId.value)
  {
  }
}
