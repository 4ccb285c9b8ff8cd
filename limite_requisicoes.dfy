/**
 * Per-client rate limiting: each request increments a counter kept per client
 * id for a fixed window; past the configured maximum the request is answered
 * 429 instead of being served. A failing store lets every request through.
 */
module LimiteRequisicoes {
  import opened Wrappers
  import opened Texto
  import opened Tempo
  import Idempotencia

  const PREFIX: string := "rl:"
  const MAX_REQUESTS_PADRAO: int := 200
  const WINDOW_SECONDS_PADRAO: int := 60
  const SC_TOO_MANY_REQUESTS: int := 429

  /** The characters a client id keeps: `[a-zA-Z0-9.:]`. */
  predicate PermitidoNoId(c: char)
  {
    ('a' <= c <= 'z') || ('A' <= c <= 'Z') || ('0' <= c <= '9') || c == '.' || c == ':'
  }

  /** `replaceAll("[^a-zA-Z0-9.:]", "_")`. */
  function SanitizarId(s: string): (r: string)
    ensures |r| == |s|
    ensures forall i :: 0 <= i < |s| ==> r[i] == (if PermitidoNoId(s[i]) then s[i] else '_')
  {
    if s == [] then [] else [if PermitidoNoId(s[0]) then s[0] else '_'] + SanitizarId(s[1..])
  }

  /** The id when no forwarding header is usable: the remote address with ':' made '_', or "unknown". */
  function IdRemoto(remoteAddr: Option<string>): string
  {
    if remoteAddr.Some? then ReplaceChar(remoteAddr.value, ':', '_') else "unknown"
  }

  /**
   * `clientId` as written: the first entry of a non-blank X-Forwarded-For,
   * trimmed and sanitised, else the remote address. `None` is the
   * `ArrayIndexOutOfBoundsException` of indexing an empty split.
   */
  function ClientIdComoEscrito(xff: Option<string>, remoteAddr: Option<string>): Option<string>
  {
    if HasText(xff) then
      var partes := Split(xff.value, ',');
      if partes == [] then None else Some(SanitizarId(Trim(partes[0])))
    else Some(IdRemoto(remoteAddr))
  }

  /** A header of commas only is not blank, yet leaves the split with nothing to index. */
  lemma SoVirgulasFalha(remoteAddr: Option<string>)
    ensures ClientIdComoEscrito(Some(","), remoteAddr) == None
  {
    assert !IsWhitespace(',');
    SplitVazio(",", ',');
  }

  /** A forwarding header that names a first entry. */
  predicate TemPrimeiraEntrada(xff: Option<string>)
  {
    HasText(xff) && !SoCom(xff.value, ',')
  }

  /**
   * `clientId` as intended: a forwarding header without any entry is treated
   * like a missing one, so every request gets an id.
   */
  function ClientId(xff: Option<string>, remoteAddr: Option<string>): (r: string)
    ensures forall i :: 0 <= i < |r| && TemPrimeiraEntrada(xff) ==> PermitidoNoId(r[i]) || r[i] == '_'
    ensures !TemPrimeiraEntrada(xff) ==> r == IdRemoto(remoteAddr)
  {
    if TemPrimeiraEntrada(xff) then SanitizarId(Trim(BeforeFirst(xff.value, ',')))
    else IdRemoto(remoteAddr)
  }

  /**
   * The corrected id differs from the written one only where the written
   * one throws: everywhere else they agree.
   */
  lemma ClientIdCorrigido(xff: Option<string>, remoteAddr: Option<string>)
    ensures ClientIdComoEscrito(xff, remoteAddr).None? <==> HasText(xff) && SoCom(xff.value, ',')
    ensures ClientIdComoEscrito(xff, remoteAddr).Some? ==> ClientIdComoEscrito(xff, remoteAddr).value == ClientId(xff, remoteAddr)
  {
    if HasText(xff) {
      SplitVazio(xff.value, ',');
      assert xff.value != [];
    }
  }

  /** A request's entries differ only in the id they are filed under; the first one decides. */
  lemma {:induction false} SoAPrimeiraEntradaConta(primeira: string, resto: string, remoteAddr: Option<string>)
    requires ',' !in primeira && !IsBlank(primeira)
    ensures ClientId(Some(primeira + "," + resto), remoteAddr) == SanitizarId(Trim(primeira))
  {
    PrimeiraEntrada(primeira, resto);
  }

  /** A header whose first entry is `primeira` names that entry. */
  lemma {:induction false} PrimeiraEntrada(primeira: string, resto: string)
    requires ',' !in primeira && !IsBlank(primeira)
    ensures TemPrimeiraEntrada(Some(primeira + "," + resto))
    ensures BeforeFirst(primeira + "," + resto, ',') == primeira
  {
    var s := primeira + "," + resto;
    assert s == primeira + ("," + resto);
    BeforeFirstConcat(primeira, "," + resto, ',');
    var i :| 0 <= i < |primeira| && !IsWhitespace(primeira[i]);
    assert s[i] == primeira[i];
    assert s[i] != ',';
  }

  /** The counter key of a request. */
  function Chave(xff: Option<string>, remoteAddr: Option<string>): string
  {
    PREFIX + ClientId(xff, remoteAddr)
  }

  /** What the filter does with the request. */
  datatype Decisao =
    | Prossegue
    | MuitasRequisicoes(status: int, contentType: string, corpo: Idempotencia.CorpoDeErro)

  /** The 429 answer. */
  function Recusa(path: string, agora: Instante, requestId: Option<string>): Decisao
  {
    MuitasRequisicoes(SC_TOO_MANY_REQUESTS, "application/json",
      Idempotencia.CorpoDeErro("RATE_LIMIT", "Muitas requisições. Tente novamente em alguns instantes.",
        path, agora, requestId))
  }

  /** The counter a key holds, 0 when it does not exist. */
  function Contagem(contadores: map<string, int>, chave: string): int
  {
    if chave in contadores then contadores[chave] else 0
  }

  /** The counters after `n` requests under `chave`. */
  function AposRequisicoes(contadores: map<string, int>, chave: string, n: nat): map<string, int>
  {
    if n == 0 then contadores
    else var m := AposRequisicoes(contadores, chave, n - 1); m[chave := Contagem(m, chave) + 1]
  }

  /** In a fresh window the counter is the number of requests made in it; no other counter moves. */
  lemma {:induction false} ContadorContaRequisicoes(contadores: map<string, int>, chave: string, n: nat)
    requires chave !in contadores
    ensures Contagem(AposRequisicoes(contadores, chave, n), chave) == n
    ensures forall k :: k != chave ==> Contagem(AposRequisicoes(contadores, chave, n), k) == Contagem(contadores, k)
  {
    if n > 0 {
      ContadorContaRequisicoes(contadores, chave, n - 1);
    }
  }

  /**
   * In a fresh window, the n-th request of a client (counting from 1) is
   * refused exactly when n exceeds the maximum: the maximum-th still passes.
   */
  lemma LimiteExato(contadores: map<string, int>, chave: string, n: nat, maxRequests: int)
    requires chave !in contadores && n >= 1
    ensures Contagem(AposRequisicoes(contadores, chave, n), chave) > maxRequests <==> n > maxRequests
  {
    ContadorContaRequisicoes(contadores, chave, n);
  }

  class RateLimitFilter {
    /** The per-key counters of the store, without their expiry times. */
    var contadores: map<string, int>
    /** The keys an expiry was set on. */
    var comExpiracao: set<string>
    const maxRequests: int
    const windowSeconds: int

    /** Unset properties fall back to 200 requests per 60 seconds. */
    constructor (maxRequests: Option<int>, windowSeconds: Option<int>)
      ensures this.maxRequests == maxRequests.GetOr(MAX_REQUESTS_PADRAO)
      ensures this.windowSeconds == windowSeconds.GetOr(WINDOW_SECONDS_PADRAO)
      ensures contadores == map[] && comExpiracao == {}
    {
      this.maxRequests := maxRequests.GetOr(MAX_REQUESTS_PADRAO);
      this.windowSeconds := windowSeconds.GetOr(WINDOW_SECONDS_PADRAO);
      contadores, comExpiracao := map[], {};
    }

    /**
     * The counting step under `chave`: one increment, an expiry set when
     * that starts the window, and a 429 once the count exceeds the maximum.
     */
    method Contar(chave: string, path: string, agora: Instante, requestId: Option<string>) returns (r: Decisao)
      modifies this
      ensures var n := Contagem(old(contadores), chave) + 1;
        && contadores == old(contadores)[chave := n]
        && comExpiracao == (if n == 1 then old(comExpiracao) + {chave} else old(comExpiracao))
        && (r.MuitasRequisicoes? <==> n > maxRequests)
        && (r.MuitasRequisicoes? ==> r == Recusa(path, agora, requestId))
    {
      var count := Contagem(contadores, chave) + 1;
      contadores := contadores[chave := count];
      if count == 1 {
        comExpiracao := comExpiracao + {chave};
      }
      if count > maxRequests {
        return Recusa(path, agora, requestId);
      }
      r := Prossegue;
    }

    /**
     * `doFilterInternal`: the counting step under "rl:" + the client id.
     * With `armazenamentoFalha` the store is unreachable and the request
     * passes with nothing changed.
     */
    method DoFilterInternal(xff: Option<string>, remoteAddr: Option<string>, path: string, agora: Instante,
                            requestId: Option<string>, armazenamentoFalha: bool) returns (r: Decisao)
      modifies this
      ensures armazenamentoFalha ==> r == Prossegue && contadores == old(contadores) && comExpiracao == old(comExpiracao)
      ensures !armazenamentoFalha ==>
        var chave := Chave(xff, remoteAddr);
        var n := Contagem(old(contadores), chave) + 1;
        && contadores == old(contadores)[chave := n]
        && comExpiracao == (if n == 1 then old(comExpiracao) + {chave} else old(comExpiracao))
        && (r.MuitasRequisicoes? <==> n > maxRequests)
      ensures r.MuitasRequisicoes? ==> r == Recusa(path, agora, requestId)
    {
      var chave := Chave(xff, remoteAddr);
      if armazenamentoFalha {
        return Prossegue;
      }
      r := Contar(chave, path, agora, requestId);
    }
  }
}
