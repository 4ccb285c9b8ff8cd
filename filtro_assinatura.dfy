/**
 * The subscription gate in front of the provider endpoints: a provider
 * without a running subscription is answered 402 instead of being served,
 * except on the few endpoints that let them sign up, look at themselves or
 * pay.
 */
module FiltroAssinatura {
  import opened Wrappers
  import opened Texto
  import opened Tempo
  import opened Dominio
  import AssinaturaServico

  const PREFIXO_PRESTADORES: string := "/api/prestadores"
  const ROLE_PRESTADOR: string := "ROLE_prestador"
  const SC_PAYMENT_REQUIRED: int := 402
  const CORPO_INATIVA: string := "{\"message\":\"Sua assinatura está inativa. Regularize para continuar atendendo.\"}"

  /** The authenticated principal: its authorities, and the subject when it is a JWT. */
  datatype Autenticacao = Autenticacao(authorities: set<string>, subject: Option<string>)

  /**
   * What the filter does with a request: hand it to the rest of the chain,
   * answer 402 itself, or let the subscription lookup's failure escape.
   */
  datatype Desfecho =
    | Prossegue
    | PagamentoNecessario(status: int, contentType: string, corpo: string)
    | Falha(mensagem: string)

  /** `isAllowedWithoutSubscription`: sign-up, anything about the subscription, and reading oneself. */
  predicate IsAllowedWithoutSubscription(metodo: string, path: string)
  {
    (EqualsIgnoreCase("POST", metodo) && EndsWith(path, "/vincular"))
    || Contains(path, "/me/assinatura")
    || (EqualsIgnoreCase("GET", metodo) && (path == "/api/prestadores/me" || path == "/api/prestadores/me/"))
  }

  /** Requests the gate concerns: a provider endpoint, called by a provider, not exempt. */
  predicate Guardado(metodo: string, path: string, auth: Option<Autenticacao>)
  {
    StartsWith(path, PREFIXO_PRESTADORES) && auth.Some? && ROLE_PRESTADOR in auth.value.authorities
    && !IsAllowedWithoutSubscription(metodo, path)
  }

  class PrestadorAssinaturaFilter {
    const assinaturaService: AssinaturaServico.AssinaturaService

    constructor (assinaturaService: AssinaturaServico.AssinaturaService)
      ensures this.assinaturaService == assinaturaService
    {
      this.assinaturaService := assinaturaService;
    }

    /**
     * `doFilterInternal`: each request either goes down the chain once or is
     * answered 402 here (the result is one of the two, or the lookup's
     * failure); only a guarded request with a JWT subject whose provider has
     * no running subscription is stopped.
     */
    function DoFilterInternal(metodo: string, path: string, auth: Option<Autenticacao>, hoje: Data): (r: Desfecho)
      reads this, assinaturaService, assinaturaService.prestadores, assinaturaService.assinaturas
      ensures !Guardado(metodo, path, auth) ==> r == Prossegue
      ensures Guardado(metodo, path, auth) && auth.value.subject.None? ==> r == Prossegue
      ensures r.PagamentoNecessario? <==> (Guardado(metodo, path, auth) && auth.value.subject.Some?
        && assinaturaService.PrestadorComAssinaturaAtiva(auth.value.subject.value, hoje) == Success(false))
      ensures r.PagamentoNecessario? ==>
        r == PagamentoNecessario(SC_PAYMENT_REQUIRED, "application/json;charset=UTF-8", CORPO_INATIVA)
      ensures r.Falha? <==> (Guardado(metodo, path, auth) && auth.value.subject.Some?
        && assinaturaService.PrestadorComAssinaturaAtiva(auth.value.subject.value, hoje).Failure?)
    {
      if !StartsWith(path, PREFIXO_PRESTADORES) then Prossegue
      else if auth.None? || ROLE_PRESTADOR !in auth.value.authorities then Prossegue
      else if IsAllowedWithoutSubscription(metodo, path) then Prossegue
      else if auth.value.subject.Some? then
        match assinaturaService.PrestadorComAssinaturaAtiva(auth.value.subject.value, hoje)
        case Failure(e) => Falha(e)
        case Success(ativa) =>
          if !ativa then PagamentoNecessario(SC_PAYMENT_REQUIRED, "application/json;charset=UTF-8", CORPO_INATIVA)
          else Prossegue
      else Prossegue
    }
  }

  /**
   * A provider whose latest ATIVA subscription ends today or later is never
   * stopped by the gate, on any endpoint.
   */
  lemma VigentePassa(f: PrestadorAssinaturaFilter, metodo: string, path: string, kc: string, authorities: set<string>,
                     p: Prestador, hoje: Data)
    requires PrestadorPorKeycloak(f.assinaturaService.prestadores.prestadores, kc) == Some(p)
    requires AssinaturaServico.Vigente(f.assinaturaService.assinaturas.linhas, p.id, hoje)
    ensures f.DoFilterInternal(metodo, path, Some(Autenticacao(authorities, Some(kc))), hoje) == Prossegue
  {
  }

  /**
   * A 402 is only ever sent to a registered provider whose subscription is
   * not running today.
   */
  lemma BloqueioSoSemVigencia(f: PrestadorAssinaturaFilter, metodo: string, path: string, auth: Option<Autenticacao>,
                              hoje: Data)
    requires f.DoFilterInternal(metodo, path, auth, hoje).PagamentoNecessario?
    ensures auth.Some? && auth.value.subject.Some?
    ensures var p := PrestadorPorKeycloak(f.assinaturaService.prestadores.prestadores, auth.value.subject.value);
      p.Some? && !AssinaturaServico.Vigente(f.assinaturaService.assinaturas.linhas, p.value.id, hoje)
  {
  }

  /** Any subscription endpoint, whatever the method, is reachable without a subscription. */
  lemma AssinaturaSempreAcessivel(metodo: string, inicio: string, fim: string)
    ensures IsAllowedWithoutSubscription(metodo, inicio + "/me/assinatura" + fim)
  {
    var path := inicio + "/me/assinatura" + fim;
    assert OccursAt(path, "/me/assinatura", |inicio|) by {
      assert path[|inicio|..|inicio| + |"/me/assinatura"|] == "/me/assinatura";
    }
  }
}
