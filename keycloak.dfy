/**
 * The web client's identity helpers: one Keycloak instance per page and one
 * initialisation, the user's roles read from the parsed token, and the
 * profile shown in the interface with its fallbacks for missing names.
 */
module KeycloakCliente {
  import opened Wrappers
  import opened Texto

  const ERRO_FORA_DO_NAVEGADOR: string := "Keycloak can only be used in the browser"
  const URL_PADRAO: string := "https://auth.iamgabrieldev.com.br"
  const REALM_PADRAO: string := "ajeitai"
  const CLIENT_ID_PADRAO: string := "ajeitai-frontend"

  /** The roles the interface knows. */
  datatype Papel = Cliente | Prestador | Admin

  function Nome(p: Papel): string
  {
    match p
    case Cliente => "cliente"
    case Prestador => "prestador"
    case Admin => "admin"
  }

  /** The known role a token role names, if any. */
  function PapelDe(s: string): (r: Option<Papel>)
    ensures r.Some? ==> Nome(r.value) == s
    ensures r.None? ==> forall p: Papel :: Nome(p) != s
  {
    if s == "cliente" then Some(Cliente)
    else if s == "prestador" then Some(Prestador)
    else if s == "admin" then Some(Admin)
    else None
  }

  /** The claims of a parsed token the helpers read; `realmRoles` is `realm_access.roles`. */
  datatype Token = Token(realmRoles: Option<seq<string>>, sub: Option<string>, email: Option<string>,
                         name: Option<string>, givenName: Option<string>, familyName: Option<string>,
                         preferredUsername: Option<string>)

  /** `x || ""` on an optional string claim. */
  function Valor(x: Option<string>): string
  {
    if x.Some? then x.value else ""
  }

  /** `a || b` on strings: `a` unless it is "". */
  function Ou(a: string, b: string): string
  {
    if a != "" then a else b
  }

  /** The known roles among `roles`, in their order. */
  function Filtrar(roles: seq<string>): (r: seq<Papel>)
    ensures |r| <= |roles|
    ensures forall p :: p in r <==> Nome(p) in roles
  {
    if roles == [] then []
    else
      var resto := Filtrar(roles[1..]);
      assert roles == [roles[0]] + roles[1..];
      match PapelDe(roles[0])
      case Some(p) => [p] + resto
      case None => resto
  }

  /** Filtering a list made of two lists filters each. */
  lemma {:induction false} FiltrarConcat(a: seq<string>, b: seq<string>)
    ensures Filtrar(a + b) == Filtrar(a) + Filtrar(b)
  {
    if a != [] {
      assert (a + b)[1..] == a[1..] + b;
      FiltrarConcat(a[1..], b);
    } else {
      assert a + b == b;
    }
  }

  /** A list of known roles only is kept whole and in order. */
  lemma {:induction false} FiltrarSoConhecidos(roles: seq<string>)
    requires forall i :: 0 <= i < |roles| ==> PapelDe(roles[i]).Some?
    ensures |Filtrar(roles)| == |roles|
    ensures forall i :: 0 <= i < |roles| ==> Nome(Filtrar(roles)[i]) == roles[i]
  {
    if roles != [] {
      FiltrarSoConhecidos(roles[1..]);
      var r := Filtrar(roles);
      assert r == [PapelDe(roles[0]).value] + Filtrar(roles[1..]);
      forall i | 0 <= i < |roles|
        ensures Nome(r[i]) == roles[i]
      {
        if i > 0 {
          assert r[i] == Filtrar(roles[1..])[i - 1];
          assert roles[i] == roles[1..][i - 1];
        }
      }
    }
  }

  /** `extractRoles`: the known roles of the token's realm roles; none without a token or roles. */
  function ExtractRoles(tokenParsed: Option<Token>): (r: seq<Papel>)
    ensures tokenParsed.None? || tokenParsed.value.realmRoles.None? ==> r == []
    ensures forall p :: p in r <==> tokenParsed.Some? && tokenParsed.value.realmRoles.Some?
                                    && Nome(p) in tokenParsed.value.realmRoles.value
  {
    if tokenParsed.None? || tokenParsed.value.realmRoles.None? then []
    else Filtrar(tokenParsed.value.realmRoles.value)
  }

  /** `hasRole`: the token's realm roles include the role. */
  function HasRole(tokenParsed: Option<Token>, role: Papel): (r: bool)
    ensures r <==> tokenParsed.Some? && tokenParsed.value.realmRoles.Some?
                   && Nome(role) in tokenParsed.value.realmRoles.value
  {
    role in ExtractRoles(tokenParsed)
  }

  datatype UserProfile = UserProfile(id: string, email: string, firstName: string, lastName: string, roles: seq<Papel>)

  /** The first name: given name, else the full name's first word, else the username, else the e-mail's local part. */
  function PrimeiroNome(t: Token): string
  {
    Ou(Valor(t.givenName),
      Ou(Pedacos(Valor(t.name), ' ')[0],
        Ou(Valor(t.preferredUsername),
          Ou(BeforeFirst(Valor(t.email), '@'), ""))))
  }

  /** The last name: family name, else the full name's words after the first joined by spaces. */
  function Sobrenome(t: Token): string
  {
    Ou(Valor(t.familyName), Ou(Join(Pedacos(Valor(t.name), ' ')[1..], " "), ""))
  }

  /** `getUserProfile`: no profile without a parsed token. */
  function GetUserProfile(tokenParsed: Option<Token>): (r: Option<UserProfile>)
    ensures r.None? <==> tokenParsed.None?
    ensures r.Some? ==> r.value.id == Valor(tokenParsed.value.sub) && r.value.email == Valor(tokenParsed.value.email)
    ensures r.Some? ==> r.value.firstName == PrimeiroNome(tokenParsed.value) && r.value.lastName == Sobrenome(tokenParsed.value)
    ensures r.Some? ==> forall p :: p in r.value.roles <==> HasRole(tokenParsed, p)
  {
    if tokenParsed.None? then None
    else
      var t := tokenParsed.value;
      Some(UserProfile(Valor(t.sub), Valor(t.email), PrimeiroNome(t), Sobrenome(t), ExtractRoles(tokenParsed)))
  }

  /** Without a family name, the last name is everything after the full name's first space. */
  lemma SobrenomeDoNomeCompleto(t: Token)
    ensures Sobrenome(t) == (if Valor(t.familyName) != "" then Valor(t.familyName) else AfterFirst(Valor(t.name), ' '))
  {
    DepoisDoPrimeiro(Valor(t.name), ' ');
  }

  /**
   * A token with only a full name "first rest" (first without spaces, both
   * parts non-empty) gives back that name split at its first space.
   */
  lemma NomeSeparado(t: Token, primeiro: string, resto: string)
    requires Valor(t.givenName) == "" && Valor(t.familyName) == ""
    requires t.name == Some(primeiro + " " + resto)
    requires primeiro != "" && resto != "" && ' ' !in primeiro
    ensures PrimeiroNome(t) == primeiro && Sobrenome(t) == resto
    ensures PrimeiroNome(t) + " " + Sobrenome(t) == t.name.value
  {
    var s := primeiro + " " + resto;
    assert s == primeiro + [' '] + resto;
    PedacosConcat(primeiro, resto, ' ');
    assert Pedacos(s, ' ')[1..] == Pedacos(resto, ' ');
    JuntarPedacos(resto, ' ');
  }

  /** With no names and no username, the first name is the e-mail's local part. */
  lemma PrimeiroNomeDoEmail(t: Token, local: string, dominio: string)
    requires Valor(t.givenName) == "" && Valor(t.name) == "" && Valor(t.preferredUsername) == ""
    requires t.email == Some(local + "@" + dominio) && '@' !in local
    ensures PrimeiroNome(t) == local
  {
    assert Pedacos("", ' ')[0] == "";
    BeforeFirstConcat(local, "@" + dominio, '@');
    assert local + "@" + dominio == local + ("@" + dominio);
  }

  /** The options the client is built with. */
  datatype Configuracao = Configuracao(url: string, realm: string, clientId: string)

  /** The public environment variables; unset ones are `None`. */
  datatype Ambiente = Ambiente(url: Option<string>, realm: Option<string>, clientId: Option<string>)

  /** Each option from its variable, or its default when the variable is unset or empty. */
  function Configurar(amb: Ambiente): (r: Configuracao)
    ensures r.url != "" && r.realm != "" && r.clientId != ""
    ensures Valor(amb.url) != "" ==> r.url == amb.url.value
    ensures Valor(amb.url) == "" ==> r.url == URL_PADRAO
    ensures Valor(amb.realm) != "" ==> r.realm == amb.realm.value
    ensures Valor(amb.realm) == "" ==> r.realm == REALM_PADRAO
    ensures Valor(amb.clientId) != "" ==> r.clientId == amb.clientId.value
    ensures Valor(amb.clientId) == "" ==> r.clientId == CLIENT_ID_PADRAO
  {
    Configuracao(Ou(Valor(amb.url), URL_PADRAO), Ou(Valor(amb.realm), REALM_PADRAO),
                 Ou(Valor(amb.clientId), CLIENT_ID_PADRAO))
  }

  /** The one initialisation: the client it was started on and the options it was given. */
  datatype Inicializacao = Inicializacao(cliente: Configuracao, onLoad: string, pkceMethod: string, checkLoginIframe: bool)

  /** The options `initKeycloak` starts the client with. */
  function Iniciar(kc: Configuracao): (r: Inicializacao)
    ensures r.cliente == kc && r.onLoad == "login-required" && r.pkceMethod == "S256" && !r.checkLoginIframe
  {
    Inicializacao(kc, "login-required", "S256", false)
  }

  /** The module-level state: the shared client and the shared initialisation. */
  class KeycloakModulo {
    var keycloakInstance: Option<Configuracao>
    var initPromise: Option<Inicializacao>

    constructor ()
      ensures keycloakInstance.None? && initPromise.None?
    {
      keycloakInstance, initPromise := None, None;
    }

    /**
     * `getKeycloak`: outside a browser an error; inside, the client built on
     * the first call, whatever the environment says on later ones.
     */
    method GetKeycloak(emNavegador: bool, amb: Ambiente) returns (r: Result<Configuracao>)
      modifies this
      ensures !emNavegador ==> r == Failure(ERRO_FORA_DO_NAVEGADOR) && keycloakInstance == old(keycloakInstance)
      ensures emNavegador ==> (keycloakInstance == Some(old(keycloakInstance).GetOr(Configurar(amb)))
                               && r == Success(keycloakInstance.value))
      ensures initPromise == old(initPromise)
    {
      if !emNavegador {
        return Failure(ERRO_FORA_DO_NAVEGADOR);
      }
      if keycloakInstance.None? {
        keycloakInstance := Some(Configurar(amb));
      }
      r := Success(keycloakInstance.value);
    }

    /** `initKeycloak`: the initialisation of the first call, whatever client later calls pass. */
    method InitKeycloak(kc: Configuracao) returns (r: Inicializacao)
      modifies this
      ensures initPromise == Some(old(initPromise).GetOr(Iniciar(kc))) && r == initPromise.value
      ensures keycloakInstance == old(keycloakInstance)
    {
      if initPromise.None? {
        initPromise := Some(Iniciar(kc));
      }
      r := initPromise.value;
    }

    /** Two page loads in the browser share one client and one initialisation. */
    method DuasVezes(amb1: Ambiente, amb2: Ambiente) returns (kc1: Configuracao, kc2: Configuracao,
                                                            p1: Inicializacao, p2: Inicializacao)
      modifies this
      requires keycloakInstance.None? && initPromise.None?
      ensures kc1 == kc2 == Configurar(amb1)
      ensures p1 == p2 == Iniciar(kc1)
    {
      var r1 := GetKeycloak(true, amb1);
      kc1 := r1.value;
      p1 := InitKeycloak(kc1);
      var r2 := GetKeycloak(true, amb2);
      kc2 := r2.value;
      p2 := InitKeycloak(kc2);
    }
  }
}
