/**
 * The per-request user context: who is calling (the token's subject), the
 * kind of user derived from the token's roles, the roles themselves, and the
 * internal client/provider ids resolved on demand and cached.
 */
module ContextoUsuario {
  import opened Wrappers

  datatype UserType = CLIENTE | PRESTADOR | ADMIN | UNKNOWN

  /** The role names the resolution recognises, in both spellings of the realm roles. */
  const PAPEIS_ADMIN: set<string> := {"ROLE_admin", "ROLE_ADMIN"}
  const PAPEIS_PRESTADOR: set<string> := {"ROLE_prestador", "ROLE_PRESTADOR"}
  const PAPEIS_CLIENTE: set<string> := {"ROLE_cliente", "ROLE_CLIENTE"}

  /**
   * `resolveUserType`: ADMIN before PRESTADOR before CLIENTE; no roles, or
   * none of the recognised ones, is UNKNOWN.
   */
  function ResolveUserType(roles: Option<set<string>>): (r: UserType)
    ensures roles.None? || roles.value == {} ==> r == UNKNOWN
    ensures r == ADMIN ==> roles.Some? && roles.value * PAPEIS_ADMIN != {}
    ensures r == PRESTADOR ==> roles.Some? && roles.value * PAPEIS_ADMIN == {} && roles.value * PAPEIS_PRESTADOR != {}
    ensures r == CLIENTE ==> (roles.Some? && roles.value * (PAPEIS_ADMIN + PAPEIS_PRESTADOR) == {}
      && roles.value * PAPEIS_CLIENTE != {})
    ensures r == UNKNOWN <==> roles.None? || roles.value * (PAPEIS_ADMIN + PAPEIS_PRESTADOR + PAPEIS_CLIENTE) == {}
  {
    if roles.None? || roles.value == {} then UNKNOWN
    else if "ROLE_admin" in roles.value || "ROLE_ADMIN" in roles.value then
      assert "ROLE_admin" in roles.value * PAPEIS_ADMIN || "ROLE_ADMIN" in roles.value * PAPEIS_ADMIN;
      ADMIN
    else if "ROLE_prestador" in roles.value || "ROLE_PRESTADOR" in roles.value then
      assert "ROLE_prestador" in roles.value * PAPEIS_PRESTADOR || "ROLE_PRESTADOR" in roles.value * PAPEIS_PRESTADOR;
      PRESTADOR
    else if "ROLE_cliente" in roles.value || "ROLE_CLIENTE" in roles.value then
      assert "ROLE_cliente" in roles.value * PAPEIS_CLIENTE || "ROLE_CLIENTE" in roles.value * PAPEIS_CLIENTE;
      CLIENTE
    else UNKNOWN
  }

  /** How much a user type outranks the others in the resolution. */
  function Precedencia(t: UserType): nat
  {
    match t
    case UNKNOWN => 0
    case CLIENTE => 1
    case PRESTADOR => 2
    case ADMIN => 3
  }

  /** Granting more roles never resolves to a lower-ranked user type. */
  lemma PrecedenciaMonotona(a: set<string>, b: set<string>)
    requires a <= b
    ensures Precedencia(ResolveUserType(Some(a))) <= Precedencia(ResolveUserType(Some(b)))
  {
    assert a * PAPEIS_ADMIN <= b * PAPEIS_ADMIN;
    assert a * PAPEIS_PRESTADOR <= b * PAPEIS_PRESTADOR;
    assert a * PAPEIS_CLIENTE <= b * PAPEIS_CLIENTE;
  }

  /** `hasRole`'s test: the role as given or with the `ROLE_` prefix. */
  predicate PossuiPapel(roles: set<string>, role: string)
  {
    role in roles || "ROLE_" + role in roles
  }

  /** The realm role name behind a resolved user type, in lower case. */
  function NomeDoPapel(t: UserType): string
  {
    match t
    case CLIENTE => "cliente"
    case PRESTADOR => "prestador"
    case ADMIN => "admin"
    case UNKNOWN => ""
  }

  /** The same name in upper case. */
  function NomeDoPapelMaiusculo(t: UserType): string
  {
    match t
    case CLIENTE => "CLIENTE"
    case PRESTADOR => "PRESTADOR"
    case ADMIN => "ADMIN"
    case UNKNOWN => ""
  }

  /**
   * A resolved user type is always backed by a role the context's `hasRole`
   * confirms, in one of the two spellings.
   */
  lemma ResolvidoTemPapel(roles: set<string>)
    requires ResolveUserType(Some(roles)) != UNKNOWN
    ensures var t := ResolveUserType(Some(roles));
      PossuiPapel(roles, NomeDoPapel(t)) || PossuiPapel(roles, NomeDoPapelMaiusculo(t))
  {
    var t := ResolveUserType(Some(roles));
    assert "ROLE_" + NomeDoPapel(t) in roles || "ROLE_" + NomeDoPapelMaiusculo(t) in roles by {
      match t
      case ADMIN =>
        assert "ROLE_" + "admin" == "ROLE_admin" && "ROLE_" + "ADMIN" == "ROLE_ADMIN";
      case PRESTADOR =>
        assert "ROLE_" + "prestador" == "ROLE_prestador" && "ROLE_" + "PRESTADOR" == "ROLE_PRESTADOR";
      case CLIENTE =>
        assert "ROLE_" + "cliente" == "ROLE_cliente" && "ROLE_" + "CLIENTE" == "ROLE_CLIENTE";
    }
  }

  class UserContext {
    const keycloakId: Option<string>
    const userType: UserType
    /** A copy of the roles it was built with: later changes to the caller's set do not reach it. */
    const roles: set<string>
    var clienteId: Option<int>
    var prestadorId: Option<int>

    /** A null user type is stored as UNKNOWN and null roles as the empty set; no id is cached yet. */
    constructor (keycloakId: Option<string>, userType: Option<UserType>, roles: Option<set<string>>)
      ensures this.keycloakId == keycloakId
      ensures this.userType == userType.GetOr(UNKNOWN)
      ensures this.roles == roles.GetOr({})
      ensures clienteId.None? && prestadorId.None?
    {
      this.keycloakId := keycloakId;
      this.userType := userType.GetOr(UNKNOWN);
      this.roles := roles.GetOr({});
      clienteId, prestadorId := None, None;
    }

    /** `hasRole`: false for null, otherwise the role in either spelling. */
    predicate HasRole(role: Option<string>)
    {
      role.Some? && PossuiPapel(roles, role.value)
    }

    predicate IsCliente()
    {
      userType == CLIENTE
    }

    predicate IsPrestador()
    {
      userType == PRESTADOR
    }

    predicate IsAdmin()
    {
      userType == ADMIN
    }

    /** `setClienteId`: the only way the cached client id changes. */
    method SetClienteId(id: Option<int>)
      modifies this
      ensures clienteId == id && prestadorId == old(prestadorId)
    {
      clienteId := id;
    }

    /** `setPrestadorId`: the only way the cached provider id changes. */
    method SetPrestadorId(id: Option<int>)
      modifies this
      ensures prestadorId == id && clienteId == old(clienteId)
    {
      prestadorId := id;
    }
  }

  /** How many of the three role predicates hold. */
  function PapeisVerdadeiros(c: UserContext): (n: nat)
  {
    (if c.IsCliente() then 1 else 0) + (if c.IsPrestador() then 1 else 0) + (if c.IsAdmin() then 1 else 0)
  }

  /** At most one role predicate holds, and none for UNKNOWN. */
  lemma UmPapelNoMaximo(c: UserContext)
    ensures PapeisVerdadeiros(c) <= 1
    ensures c.userType == UNKNOWN <==> PapeisVerdadeiros(c) == 0
  {
  }

  /** The per-request holder: one cell, set by the filter and cleared when the request ends. */
  class UserContextHolder {
    var atual: Option<UserContext>

    constructor ()
      ensures atual.None?
    {
      atual := None;
    }
  }

  /** What the security layer established for the request. */
  datatype Autenticacao =
    | Anonima
    | Jwt(subject: Option<string>, authorities: seq<string>, autenticado: bool)
    | Outra(autenticado: bool)

  /** The authorities of a token, collected into a set. */
  function RolesDe(authorities: seq<string>): (r: set<string>)
    ensures forall a :: a in r <==> a in authorities
  {
    set a | a in authorities
  }

  class UserContextFilter {
    const holder: UserContextHolder

    constructor (holder: UserContextHolder)
      ensures this.holder == holder
    {
      this.holder := holder;
    }

    /**
     * `doFilterInternal`: installs a context only for an authenticated JWT
     * token, lets the rest of the chain run (returned here is the context
     * the chain sees), and clears the holder on the way out, whatever the
     * chain did.
     */
    method DoFilterInternal(autenticacao: Autenticacao) returns (vistoPelaCadeia: Option<UserContext>)
      requires holder.atual.None?
      modifies holder
      ensures holder.atual.None?
      ensures vistoPelaCadeia.Some? <==> autenticacao.Jwt? && autenticacao.autenticado
      ensures vistoPelaCadeia.Some? ==>
        var c := vistoPelaCadeia.value;
        fresh(c) && c.keycloakId == autenticacao.subject && c.roles == RolesDe(autenticacao.authorities)
        && c.userType == ResolveUserType(Some(RolesDe(autenticacao.authorities)))
        && c.clienteId.None? && c.prestadorId.None?
    {
      if autenticacao.Jwt? && autenticacao.autenticado {
        var roles := RolesDe(autenticacao.authorities);
        var contexto := new UserContext(autenticacao.subject, Some(ResolveUserType(Some(roles))), Some(roles));
        holder.atual := Some(contexto);
      }
      vistoPelaCadeia := holder.atual;
      holder.atual := None;
    }
  }
}
