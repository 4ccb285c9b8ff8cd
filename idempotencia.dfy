/**
 * Idempotent writes: a POST/PUT/PATCH carrying an `Idempotency-Key` header is
 * processed at most once at a time, and a successful JSON answer is kept so
 * that a repetition of the request is answered from the store instead of
 * being executed again.
 */
module Idempotencia {
  import opened Wrappers
  import opened Texto
  import opened Numeros
  import opened Tempo

  const PREFIX: string := "idem:"
  const SUFFIX_PROCESSING: string := ":proc"
  const PROCESSING_TTL_SECONDS: int := 120
  const TAMANHO_MAXIMO: nat := 128

  /** `shouldNotFilter`: no usable key, or a method that is not a write. */
  predicate ShouldNotFilter(cabecalho: Option<string>, metodo: string)
  {
    !HasText(cabecalho)
    || !(EqualsIgnoreCase("POST", metodo) || EqualsIgnoreCase("PUT", metodo) || EqualsIgnoreCase("PATCH", metodo))
  }

  /** The characters a key keeps: `[a-zA-Z0-9_-]`. */
  predicate Permitido(c: char)
  {
    ('a' <= c <= 'z') || ('A' <= c <= 'Z') || ('0' <= c <= '9') || c == '_' || c == '-'
  }

  /** `replaceAll("[^a-zA-Z0-9_-]", "_")`. */
  function Sanitizar(s: string): (r: string)
    ensures |r| == |s|
    ensures forall i :: 0 <= i < |s| ==> Permitido(r[i])
    ensures forall i :: 0 <= i < |s| && Permitido(s[i]) ==> r[i] == s[i]
  {
    if s == [] then [] else [if Permitido(s[0]) then s[0] else '_'] + Sanitizar(s[1..])
  }

  /** Sanitising a sanitised key changes nothing. */
  lemma SanitizarIdempotente(s: string)
    ensures Sanitizar(Sanitizar(s)) == Sanitizar(s)
  {
    var t := Sanitizar(s);
    assert forall i :: 0 <= i < |t| ==> Sanitizar(t)[i] == t[i];
  }

  /** `String.hashCode` over the key's characters, with 32-bit wrap-around. */
  function HashCode(s: string): int
  {
    if s == [] then 0 else Int32(31 * HashCode(s[..|s| - 1]) + s[|s| - 1] as int)
  }

  /** The key text after trimming and sanitising, with the hash fallback for an empty one. */
  function ChaveSanitizada(cabecalho: string): string
  {
    var bruta := Trim(cabecalho);
    var s := Sanitizar(bruta);
    if s == [] then LongToString(HashCode(bruta)) else s
  }

  /** The store key of a request's cached answer. */
  function ChaveIdem(cabecalho: string): (r: string)
  {
    var s := ChaveSanitizada(cabecalho);
    PREFIX + s[..if |s| < TAMANHO_MAXIMO then |s| else TAMANHO_MAXIMO]
  }

  /** The store key of the marker saying a request with that key is running. */
  function ChaveProcessamento(cabecalho: string): (r: string)
  {
    ChaveIdem(cabecalho) + SUFFIX_PROCESSING
  }

  /** The key text after the prefix is never empty, at most 128 characters, and only `[a-zA-Z0-9_-]`. */
  lemma {:induction false} ChaveBemFormada(cabecalho: string)
    ensures var k := ChaveIdem(cabecalho);
      && 6 <= |k| <= |PREFIX| + TAMANHO_MAXIMO && k[..|PREFIX|] == PREFIX
      && forall i :: |PREFIX| <= i < |k| ==> Permitido(k[i])
  {
    if Sanitizar(Trim(cabecalho)) == [] {
      assert LongToString(0) == "0";
    }
  }

  /** A cached answer's key can never be taken for a running-request marker, whatever the two headers. */
  lemma ChavesNaoColidem(a: string, b: string)
    ensures ChaveIdem(a) != ChaveProcessamento(b)
  {
    ChaveBemFormada(a);
    ChaveBemFormada(b);
    var ka, kb := ChaveIdem(a), ChaveIdem(b);
    var pb := ChaveProcessamento(b);
    assert pb[|kb|] == ':';
  }

  /**
   * The hash fallback is reachable: a key made only of control characters is
   * not blank (they are not whitespace) yet trims to nothing. Since
   * sanitising keeps the length, the fallback only ever hashes the empty text,
   * so every such key maps to the one store key "idem:0".
   */
  lemma ChaveDeControle()
    ensures !ShouldNotFilter(Some("\U{0001}"), "POST")
    ensures ChaveIdem("\U{0001}") == "idem:0"
  {
    assert !IsWhitespace('\U{0001}');
    assert TrimStart("\U{0001}") == TrimStart("\U{0001}"[1..]);
    assert Trim("\U{0001}") == [];
    assert EqualsIgnoreCase("POST", "POST");
    assert LongToString(0) == "0";
  }

  /** What the filter reads out of a stored entry. */
  datatype Entrada =
    | Marcador
    | Armazenada(status: int, body: Option<string>)
    /** A stored value that does not parse as a cached answer. */
    | Ilegivel

  /** The error body of the filter's own 409 answers. */
  datatype CorpoDeErro = CorpoDeErro(codigo: string, mensagem: string, path: string, timestamp: Instante,
                                     requestId: Option<string>)

  datatype Corpo = SemCorpo | ComTexto(texto: string) | ComErro(erro: CorpoDeErro)

  datatype Resposta = Resposta(status: int, contentType: Option<string>, retryAfter: Option<string>, corpo: Corpo)

  /** What the rest of the chain answered, as the caching wrapper saw it. */
  datatype RespostaDaCadeia = RespostaDaCadeia(status: int, conteudo: string, contentType: Option<string>)

  /** Only a non-empty 2xx JSON answer is kept. */
  predicate Cacheavel(c: RespostaDaCadeia)
  {
    200 <= c.status < 300 && |c.conteudo| > 0 && c.contentType.Some? && Contains(c.contentType.value, "json")
  }

  const APPLICATION_JSON: string := "application/json"

  function EmProcessamento(path: string, agora: Instante, requestId: Option<string>): Resposta
  {
    Resposta(409, Some(APPLICATION_JSON), Some(LongToString(PROCESSING_TTL_SECONDS)),
      ComErro(CorpoDeErro("IDEMPOTENCIA_EM_PROCESSAMENTO",
        "Requisição duplicada em processamento. Aguarde e tente novamente.", path, agora, requestId)))
  }

  /** The answer replayed from a stored entry. */
  function Replay(e: Entrada, path: string, agora: Instante, requestId: Option<string>): Resposta
  {
    match e
    case Armazenada(status, body) =>
      Resposta(status, Some(APPLICATION_JSON), None,
        if body.Some? && body.value != "" then ComTexto(body.value) else SemCorpo)
    case _ =>
      Resposta(409, Some(APPLICATION_JSON), None,
        ComErro(CorpoDeErro("IDEMPOTENCIA_DUPLICADA",
          "Requisição duplicada. Use o resultado da requisição anterior.", path, agora, requestId)))
  }

  /** The store afterwards, the answer, and whether the rest of the chain ran. */
  datatype Saida = Saida(redis: map<string, Entrada>, resposta: Resposta, cadeiaExecutada: bool)

  /**
   * What one pass of `doFilterInternal` amounts to over the store `redis`:
   * refused while the marker exists, replayed while an answer is stored,
   * executed otherwise (keeping a cacheable answer); the marker the pass sets
   * is gone again when it ends.
   */
  function Efeito(redis: map<string, Entrada>, cabecalho: string, path: string, agora: Instante,
                  requestId: Option<string>, daCadeia: RespostaDaCadeia): Saida
  {
    EfeitoSobre(redis, ChaveIdem(cabecalho), path, agora, requestId, daCadeia)
  }

  /** The same pass once the answer's key `k` is known; its marker is `k` + ":proc". */
  function EfeitoSobre(redis: map<string, Entrada>, k: string, path: string, agora: Instante,
                       requestId: Option<string>, daCadeia: RespostaDaCadeia): Saida
  {
    var p := k + SUFFIX_PROCESSING;
    if p in redis then Saida(redis, EmProcessamento(path, agora, requestId), false)
    else if k in redis then Saida(redis, Replay(redis[k], path, agora, requestId), false)
    else
      Saida(if Cacheavel(daCadeia) then redis[k := Armazenada(daCadeia.status, Some(daCadeia.conteudo))] else redis,
        Resposta(daCadeia.status, daCadeia.contentType, None, ComTexto(daCadeia.conteudo)), true)
  }

  /**
   * A pass never leaves its marker behind, runs the chain only when neither
   * the marker nor a stored answer exists, and changes no other key than the
   * request's own answer.
   */
  lemma MarcadorNuncaFica(redis: map<string, Entrada>, k: string, path: string, agora: Instante,
                          requestId: Option<string>, daCadeia: RespostaDaCadeia)
    ensures var s := EfeitoSobre(redis, k, path, agora, requestId, daCadeia);
      var p := k + SUFFIX_PROCESSING;
      && (p in s.redis <==> p in redis)
      && (s.cadeiaExecutada <==> p !in redis && k !in redis)
      && (forall x :: x != k ==> (x in s.redis <==> x in redis))
      && (forall x :: x != k && x in redis ==> s.redis[x] == redis[x])
      && (!s.cadeiaExecutada ==> s.redis == redis)
  {
    assert |k + SUFFIX_PROCESSING| > |k|;
  }

  /** While a request with the same key is running, a second one is refused with 409 and Retry-After. */
  lemma ConcorrenteRecusado(redis: map<string, Entrada>, k: string, path: string, agora: Instante,
                            requestId: Option<string>, daCadeia: RespostaDaCadeia)
    requires k + SUFFIX_PROCESSING in redis
    ensures var s := EfeitoSobre(redis, k, path, agora, requestId, daCadeia);
      && !s.cadeiaExecutada && s.redis == redis && s.resposta.status == 409
      && s.resposta.retryAfter == Some("120") && s.resposta.corpo.ComErro?
      && s.resposta.corpo.erro.codigo == "IDEMPOTENCIA_EM_PROCESSAMENTO"
  {
    RetryAfter();
  }

  /** The Retry-After value: the marker's lifetime in seconds. */
  lemma RetryAfter()
    ensures LongToString(PROCESSING_TTL_SECONDS) == "120"
  {
    assert LongToString(12) == "12";
  }

  /**
   * Repeating a request after it was executed and its answer kept replays
   * that answer without running the chain again, and leaves the store as it was.
   */
  lemma RepeticaoReproduz(redis: map<string, Entrada>, k: string, path: string, agora1: Instante,
                          agora2: Instante, requestId: Option<string>, primeira: RespostaDaCadeia,
                          segunda: RespostaDaCadeia)
    requires k !in redis && k + SUFFIX_PROCESSING !in redis
    requires Cacheavel(primeira)
    ensures var s1 := EfeitoSobre(redis, k, path, agora1, requestId, primeira);
      var s2 := EfeitoSobre(s1.redis, k, path, agora2, requestId, segunda);
      && s1.cadeiaExecutada && !s2.cadeiaExecutada && s2.redis == s1.redis
      && s2.resposta.status == primeira.status && s2.resposta.corpo == ComTexto(primeira.conteudo)
  {
    var s1 := EfeitoSobre(redis, k, path, agora1, requestId, primeira);
    assert |k + SUFFIX_PROCESSING| > |k|;
    assert k + SUFFIX_PROCESSING !in s1.redis;
    assert s1.redis[k] == Armazenada(primeira.status, Some(primeira.conteudo));
  }

  /** A request whose answer is not kept can be executed again. */
  lemma SemCacheExecutaDeNovo(redis: map<string, Entrada>, k: string, path: string, agora1: Instante,
                              agora2: Instante, requestId: Option<string>, primeira: RespostaDaCadeia,
                              segunda: RespostaDaCadeia)
    requires k !in redis && k + SUFFIX_PROCESSING !in redis
    requires !Cacheavel(primeira)
    ensures var s1 := EfeitoSobre(redis, k, path, agora1, requestId, primeira);
      EfeitoSobre(s1.redis, k, path, agora2, requestId, segunda).cadeiaExecutada
  {
  }

  class IdempotencyFilter {
    /** The key-value store, without its expiry times. */
    var redis: map<string, Entrada>

    constructor (redis: map<string, Entrada>)
      ensures this.redis == redis
    {
      this.redis := redis;
    }

    /**
     * `doFilterInternal`, for a request that passed `shouldNotFilter`:
     * `daCadeia` is what the rest of the chain answers if it is run.
     */
    method DoFilterInternal(cabecalho: string, path: string, agora: Instante, requestId: Option<string>,
                            daCadeia: RespostaDaCadeia) returns (resposta: Resposta, cadeiaExecutada: bool)
      modifies this
      ensures Saida(redis, resposta, cadeiaExecutada) == Efeito(old(redis), cabecalho, path, agora, requestId, daCadeia)
    {
      resposta, cadeiaExecutada := Processar(ChaveIdem(cabecalho), path, agora, requestId, daCadeia);
    }

    /** The pass under the answer's key: marker check, marker set, replay or run and keep, marker removed. */
    method Processar(idemKey: string, path: string, agora: Instante, requestId: Option<string>,
                     daCadeia: RespostaDaCadeia) returns (resposta: Resposta, cadeiaExecutada: bool)
      modifies this
      ensures Saida(redis, resposta, cadeiaExecutada) == EfeitoSobre(old(redis), idemKey, path, agora, requestId, daCadeia)
    {
      var processingKey := idemKey + SUFFIX_PROCESSING;
      assert |processingKey| > |idemKey|;

      if processingKey in redis {
        return EmProcessamento(path, agora, requestId), false;
      }
      ghost var antes := redis;
      redis := redis[processingKey := Marcador];

      if idemKey in redis {
        resposta := Replay(redis[idemKey], path, agora, requestId);
        redis := redis - {processingKey};
        assert redis == antes;
        return resposta, false;
      }

      cadeiaExecutada := true;
      if Cacheavel(daCadeia) {
        redis := redis[idemKey := Armazenada(daCadeia.status, Some(daCadeia.conteudo))];
      }
      redis := redis - {processingKey};
      assert redis == if Cacheavel(daCadeia)
        then antes[idemKey := Armazenada(daCadeia.status, Some(daCadeia.conteudo))] else antes;
      resposta := Resposta(daCadeia.status, daCadeia.contentType, None, ComTexto(daCadeia.conteudo));
    }
  }
}
