/**
 * Push-notification tokens of providers. A token string identifies one
 * device registration (the column is unique), so registering is an upsert
 * keyed by the token: a known token is handed to the caller, an unknown one
 * becomes a new row.
 */
module Notificacao {
  import opened Wrappers
  import opened Tempo
  import opened Dominio
  import PrestadorServico

  datatype NotificacaoToken = NotificacaoToken(
    id: int,
    prestadorId: int,
    token: string,
    plataforma: Option<string>,
    criadoEm: Instante)

  /** The request body: the token and the platform it came from. */
  datatype DadosTokenPush = DadosTokenPush(token: string, plataforma: Option<string>)

  /**
   * The token table after registering `dados` for provider `prestadorId`,
   * where `id` is the identity a new row would get and `agora` the time
   * `prePersist` would stamp on it.
   */
  function Upsert(linhas: map<string, NotificacaoToken>, prestadorId: int, dados: DadosTokenPush,
                  id: int, agora: Instante): (r: map<string, NotificacaoToken>)
    ensures r.Keys == linhas.Keys + {dados.token}
    ensures forall t :: t in linhas && t != dados.token ==> r[t] == linhas[t]
    ensures (forall t :: t in linhas ==> linhas[t].token == t) ==> r[dados.token].token == dados.token
    ensures r[dados.token].prestadorId == prestadorId && r[dados.token].plataforma == dados.plataforma
    ensures dados.token in linhas ==>
      r[dados.token].id == linhas[dados.token].id && r[dados.token].criadoEm == linhas[dados.token].criadoEm
    ensures dados.token !in linhas ==> r[dados.token].id == id && r[dados.token].criadoEm == agora
  {
    if dados.token in linhas then
      linhas[dados.token := linhas[dados.token].(prestadorId := prestadorId, plataforma := dados.plataforma)]
    else
      linhas[dados.token := NotificacaoToken(id, prestadorId, dados.token, dados.plataforma, agora)]
  }

  /** Registering the same token again, for the same provider and platform, changes nothing. */
  lemma UpsertIdempotente(linhas: map<string, NotificacaoToken>, prestadorId: int, dados: DadosTokenPush,
                          id1: int, agora1: Instante, id2: int, agora2: Instante)
    ensures Upsert(Upsert(linhas, prestadorId, dados, id1, agora1), prestadorId, dados, id2, agora2)
         == Upsert(linhas, prestadorId, dados, id1, agora1)
  {
    var m := Upsert(linhas, prestadorId, dados, id1, agora1);
    assert m[dados.token].(prestadorId := prestadorId, plataforma := dados.plataforma) == m[dados.token];
  }

  /** A registration adds a row exactly when the token was unknown. */
  lemma UpsertConta(linhas: map<string, NotificacaoToken>, prestadorId: int, dados: DadosTokenPush,
                    id: int, agora: Instante)
    ensures |Upsert(linhas, prestadorId, dados, id, agora)| == |linhas| + (if dados.token in linhas then 0 else 1)
  {
    var r := Upsert(linhas, prestadorId, dados, id, agora);
    if dados.token in linhas {
      assert r.Keys == linhas.Keys;
    } else {
      assert r.Keys == linhas.Keys + {dados.token};
      assert |r.Keys| == |linhas.Keys| + 1;
    }
  }

  /** The token table: keyed by the unique token, with the identity counter. */
  class NotificacaoTokenRepository {
    var linhas: map<string, NotificacaoToken>
    var proximoId: int

    ghost predicate Valid()
      reads this
    {
      (forall t :: t in linhas ==> linhas[t].token == t && linhas[t].id < proximoId)
      && (forall t, u :: t in linhas && u in linhas && t != u ==> linhas[t].id != linhas[u].id)
    }

    constructor ()
      ensures Valid() && linhas == map[]
    {
      linhas := map[];
      proximoId := 1;
    }

    /** `findByPrestadorId`: the tokens registered to a provider. */
    function PorPrestador(prestadorId: int): (r: set<string>)
      reads this
      ensures forall t :: t in r <==> t in linhas && linhas[t].prestadorId == prestadorId
    {
      set t | t in linhas && linhas[t].prestadorId == prestadorId
    }
  }

  class NotificacaoService {
    const prestadores: PrestadorRepository
    const tokens: NotificacaoTokenRepository

    constructor (prestadores: PrestadorRepository, tokens: NotificacaoTokenRepository)
      ensures this.prestadores == prestadores && this.tokens == tokens
    {
      this.prestadores := prestadores;
      this.tokens := tokens;
    }

    /**
     * `registrarToken`: the caller must be a provider; the token's row is then
     * reassigned to the caller with the new platform, or created.
     */
    method RegistrarToken(prestadorKeycloakId: string, dados: DadosTokenPush, agora: Instante)
      returns (r: Result<NotificacaoToken>)
      requires tokens.Valid()
      modifies tokens
      ensures tokens.Valid()
      ensures r.Failure? <==> PrestadorPorKeycloak(prestadores.prestadores, prestadorKeycloakId).None?
      ensures r.Failure? ==> (r.error == PrestadorServico.PRESTADOR_NAO_ENCONTRADO
        && tokens.linhas == old(tokens.linhas) && tokens.proximoId == old(tokens.proximoId))
      ensures r.Success? ==>
        var p := PrestadorPorKeycloak(prestadores.prestadores, prestadorKeycloakId).value;
        tokens.linhas == Upsert(old(tokens.linhas), p.id, dados, old(tokens.proximoId), agora)
        && r.value == tokens.linhas[dados.token]
        && tokens.proximoId == old(tokens.proximoId) + (if dados.token in old(tokens.linhas) then 0 else 1)
    {
      var prestador := PrestadorPorKeycloak(prestadores.prestadores, prestadorKeycloakId);
      if prestador.None? {
        return Failure(PrestadorServico.PRESTADOR_NAO_ENCONTRADO);
      }
      var registro: NotificacaoToken;
      if dados.token in tokens.linhas {
        registro := tokens.linhas[dados.token].(prestadorId := prestador.value.id, plataforma := dados.plataforma);
      } else {
        registro := NotificacaoToken(tokens.proximoId, prestador.value.id, dados.token, dados.plataforma, agora);
        tokens.proximoId := tokens.proximoId + 1;
      }
      tokens.linhas := tokens.linhas[dados.token := registro];
      return Success(registro);
    }
  }
}
