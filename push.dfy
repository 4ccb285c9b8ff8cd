/**
 * Web push in the client: the VAPID public key, written in URL-safe base64,
 * is turned into the bytes the browser's push manager expects; a
 * subscription is only attempted with a configured key and is sent to the
 * backend; notification permission is only asked for while undecided.
 * The browser's `atob`, push manager and `fetch` are parameters.
 */
module Push {
  import opened Wrappers
  import opened Texto

  const API_BASE_URL_PADRAO: string := "http://localhost:5000/api"

  /** `NEXT_PUBLIC_API_URL || "http://localhost:5000/api"`. */
  function ApiBaseUrl(env: Option<string>): (r: string)
    ensures env.Some? && env.value != "" ==> r == env.value
    ensures env.None? || env.value == "" ==> r == API_BASE_URL_PADRAO
  {
    if env.Some? && env.value != "" then env.value else API_BASE_URL_PADRAO
  }

  /** The '=' characters that complete `s` to a whole number of base64 quads. */
  function Padding(s: string): (r: string)
    ensures |r| <= 3 && (|s| + |r|) % 4 == 0
    ensures forall i :: 0 <= i < |r| ==> r[i] == '='
    ensures |r| == 0 <==> |s| % 4 == 0
  {
    Repeat('=', (4 - |s| % 4) % 4)
  }

  /** The standard-alphabet character for a URL-safe one. */
  function Padrao(c: char): char
  {
    if c == '-' then '+' else if c == '_' then '/' else c
  }

  /** URL-safe base64 made standard: padded, then '-' as '+' and '_' as '/'. */
  function ParaBase64(s: string): (r: string)
    ensures |r| == |s| + |Padding(s)| && |r| % 4 == 0
    ensures forall i :: 0 <= i < |s| ==> r[i] == Padrao(s[i])
    ensures forall i :: |s| <= i < |r| ==> r[i] == '='
    ensures '-' !in r && '_' !in r
  {
    var p := s + Padding(s);
    var r := ReplaceChar(ReplaceChar(p, '-', '+'), '_', '/');
    assert forall i :: 0 <= i < |s| ==> p[i] == s[i];
    assert forall i :: |s| <= i < |r| ==> p[i] == Padding(s)[i - |s|];
    r
  }

  /** Text already in the standard alphabet and padded passes unchanged. */
  lemma JaPadrao(s: string)
    requires '-' !in s && '_' !in s && |s| % 4 == 0
    ensures ParaBase64(s) == s
  {
    assert forall i :: 0 <= i < |s| ==> s[i] != '-' && s[i] != '_';
  }

  /** The URL-safe base64 alphabet. */
  predicate UrlSeguro(c: char)
  {
    ('A' <= c <= 'Z') || ('a' <= c <= 'z') || ('0' <= c <= '9') || c == '-' || c == '_'
  }

  /** The standard base64 alphabet. */
  predicate Base64Padrao(c: char)
  {
    ('A' <= c <= 'Z') || ('a' <= c <= 'z') || ('0' <= c <= '9') || c == '+' || c == '/'
  }

  /** `s` without its trailing '=' characters. */
  function SemPreenchimento(s: string): (r: string)
    ensures |r| <= |s| && r == s[..|r|]
    ensures r == [] || r[|r| - 1] != '='
    ensures forall i :: |r| <= i < |s| ==> s[i] == '='
  {
    if s != [] && s[|s| - 1] == '=' then
      var r := SemPreenchimento(s[..|s| - 1]);
      assert s[..|s| - 1][..|r|] == s[..|r|];
      r
    else s
  }

  /** The URL-safe character for a standard one. */
  function UrlSeguroDe(c: char): char
  {
    if c == '+' then '-' else if c == '/' then '_' else c
  }

  /** The inverse conversion: standard base64 back to unpadded URL-safe text. */
  function ParaUrlSeguro(s: string): (r: string)
    ensures |r| == |SemPreenchimento(s)|
    ensures forall i :: 0 <= i < |r| ==> r[i] == UrlSeguroDe(s[i])
  {
    ReplaceChar(ReplaceChar(SemPreenchimento(s), '+', '-'), '/', '_')
  }

  /** Stripping the padding of padded text gives back text that ended in something else. */
  lemma {:induction false} SemPreenchimentoDe(x: string, p: string)
    requires x == [] || x[|x| - 1] != '='
    requires forall i :: 0 <= i < |p| ==> p[i] == '='
    ensures SemPreenchimento(x + p) == x
    decreases |p|
  {
    if p != [] {
      var q := p[..|p| - 1];
      assert (x + p)[..|x + p| - 1] == x + q;
      SemPreenchimentoDe(x, q);
    } else {
      assert x + p == x;
    }
  }

  /** Each URL-safe character made standard is in the standard alphabet and converts back to itself. */
  lemma CaractereIdaEVolta(c: char)
    requires UrlSeguro(c)
    ensures Base64Padrao(Padrao(c)) && UrlSeguroDe(Padrao(c)) == c
  {
  }

  /** The padding added to a URL-safe key is exactly what stripping removes. */
  lemma PreenchimentoRemovido(s: string)
    requires forall i :: 0 <= i < |s| ==> UrlSeguro(s[i])
    ensures SemPreenchimento(ParaBase64(s)) == ParaBase64(s)[..|s|]
  {
    var r := ParaBase64(s);
    var x, p := r[..|s|], r[|s|..];
    assert r == x + p;
    assert forall i :: 0 <= i < |p| ==> p[i] == r[|s| + i];
    assert x == [] || x[|x| - 1] == Padrao(s[|s| - 1]) != '=';
    SemPreenchimentoDe(x, p);
  }

  /**
   * A URL-safe key made standard is standard base64 followed only by
   * padding, and converting it back gives the key again.
   */
  lemma IdaEVolta(s: string)
    requires forall i :: 0 <= i < |s| ==> UrlSeguro(s[i])
    ensures forall i :: 0 <= i < |s| ==> Base64Padrao(ParaBase64(s)[i])
    ensures ParaUrlSeguro(ParaBase64(s)) == s
  {
    var r := ParaBase64(s);
    PreenchimentoRemovido(s);
    var u := ParaUrlSeguro(r);
    forall i | 0 <= i < |s|
      ensures u[i] == s[i] && Base64Padrao(r[i])
    {
      CaractereIdaEVolta(s[i]);
    }
  }

  /** No two different URL-safe keys become the same standard text. */
  lemma ConversaoInjetiva(s: string, t: string)
    requires forall i :: 0 <= i < |s| ==> UrlSeguro(s[i])
    requires forall i :: 0 <= i < |t| ==> UrlSeguro(t[i])
    requires ParaBase64(s) == ParaBase64(t)
    ensures s == t
  {
    IdaEVolta(s);
    IdaEVolta(t);
  }

  /** An element of a `Uint8Array`. */
  newtype Octeto = x: int | 0 <= x < 256

  /** The byte a `Uint8Array` stores for a character code: the code modulo 256. */
  function Byte(c: char): Octeto
  {
    ((c as int) % 256) as Octeto
  }

  /** A code below 256 is stored as it is. */
  lemma ByteExato(c: char)
    requires c as int < 256
    ensures Byte(c) as int == c as int
  {
  }

  /** The bytes of a binary string, one per character. */
  function Bytes(raw: string): (r: seq<Octeto>)
    ensures |r| == |raw|
    ensures forall i :: 0 <= i < |raw| ==> r[i] == Byte(raw[i])
  {
    if raw == [] then [] else [Byte(raw[0])] + Bytes(raw[1..])
  }

  /** `atob` yields codes below 256, which the bytes keep exactly. */
  lemma BytesExatos(raw: string)
    requires forall i :: 0 <= i < |raw| ==> raw[i] as int < 256
    ensures forall i :: 0 <= i < |raw| ==> Bytes(raw)[i] as int == raw[i] as int
  {
    forall i | 0 <= i < |raw|
      ensures Bytes(raw)[i] as int == raw[i] as int
    {
      ByteExato(raw[i]);
    }
  }

  /** The loop of `urlBase64ToUint8Array`: a new array holding the code of each character. */
  method Preencher(rawData: string) returns (outputArray: array<Octeto>)
    ensures fresh(outputArray)
    ensures outputArray[..] == Bytes(rawData)
  {
    outputArray := new Octeto[|rawData|];
    var i := 0;
    while i < |rawData|
      invariant 0 <= i <= |rawData|
      invariant forall j :: 0 <= j < i ==> outputArray[j] == Byte(rawData[j])
    {
      outputArray[i] := Byte(rawData[i]);
      i := i + 1;
    }
  }

  /**
   * `urlBase64ToUint8Array`: the bytes `atob` decodes from the key made
   * standard; `None` is the exception `atob` throws on malformed input.
   */
  method UrlBase64ToUint8Array(base64String: string, atob: string -> Option<string>) returns (r: Option<array<Octeto>>)
    ensures r.None? <==> atob(ParaBase64(base64String)).None?
    ensures r.Some? ==> fresh(r.value) && r.value[..] == Bytes(atob(ParaBase64(base64String)).value)
  {
    var rawData := atob(ParaBase64(base64String));
    if rawData.None? {
      return None;
    }
    var outputArray := Preencher(rawData.value);
    r := Some(outputArray);
  }

  /** `Notification.permission` and the answers to `requestPermission`. */
  datatype Permissao = Granted | Denied | Default

  /** What asking for permission did: whether it was granted, and whether the user was prompted. */
  datatype Pedido = Pedido(concedida: bool, perguntou: bool)

  /**
   * `requestNotificationPermission`: false without notification support;
   * a decided permission answers without prompting; an undecided one takes
   * the user's answer.
   */
  function RequestNotificationPermission(suportado: bool, atual: Permissao, resposta: Permissao): (r: Pedido)
    ensures r.perguntou <==> suportado && atual == Default
    ensures r.concedida ==> suportado && atual != Denied
    ensures suportado && atual == Granted ==> r.concedida
    ensures r.perguntou ==> (r.concedida <==> resposta == Granted)
  {
    if !suportado then Pedido(false, false)
    else if atual == Granted then Pedido(true, false)
    else if atual == Denied then Pedido(false, false)
    else Pedido(resposta == Granted, true)
  }

  /** A decided permission is reported as it is, and the user's answer plays no part. */
  lemma DecididaNaoPergunta(suportado: bool, atual: Permissao, resposta: Permissao, outra: Permissao)
    requires atual != Default
    ensures !RequestNotificationPermission(suportado, atual, resposta).perguntou
    ensures RequestNotificationPermission(suportado, atual, resposta).concedida <==> suportado && atual == Granted
    ensures RequestNotificationPermission(suportado, atual, resposta) == RequestNotificationPermission(suportado, atual, outra)
  {
  }

  /** The body sent to the backend: the subscription as JSON. */
  datatype ChamadaHttp = ChamadaHttp(metodo: string, url: string, contentType: string, authorization: string, corpo: string)

  /**
   * One run of `subscribeToPush`: the key handed to the push manager (none
   * when it was never called), the request sent to the backend, and the
   * subscription returned.
   */
  datatype Execucao = Execucao(chaveDoServidor: Option<seq<Octeto>>, envio: Option<ChamadaHttp>, resultado: Option<string>)

  /**
   * `subscribeToPush`. `assinatura` is the JSON of the subscription the push
   * manager yields (`None` when it throws); `envioFalha` is a `fetch` that
   * throws. Every failure is caught and gives no subscription.
   */
  function SubscribeToPush(apiBaseUrl: string, vapid: string, token: string, atob: string -> Option<string>,
                           assinatura: Option<string>, envioFalha: bool): (r: Execucao)
    ensures vapid == "" ==> r == Execucao(None, None, None)
    ensures r.chaveDoServidor.Some? ==> vapid != "" && atob(ParaBase64(vapid)).Some?
                                        && r.chaveDoServidor.value == Bytes(atob(ParaBase64(vapid)).value)
    ensures r.envio.Some? ==> r.chaveDoServidor.Some? && assinatura.Some?
                              && r.envio.value == ChamadaHttp("POST", apiBaseUrl + "/push/subscribe", "application/json",
                                                              "Bearer " + token, assinatura.value)
    ensures r.resultado.Some? <==> r.envio.Some? && !envioFalha
    ensures r.resultado.Some? ==> r.resultado == assinatura
  {
    if vapid == "" then Execucao(None, None, None)
    else
      var rawData := atob(ParaBase64(vapid));
      if rawData.None? then Execucao(None, None, None)
      else
        var chave := Bytes(rawData.value);
        if assinatura.None? then Execucao(Some(chave), None, None)
        else
          var envio := ChamadaHttp("POST", apiBaseUrl + "/push/subscribe", "application/json",
                                   "Bearer " + token, assinatura.value);
          Execucao(Some(chave), Some(envio), if envioFalha then None else assinatura)
  }

  /**
   * `initPushNotifications`: asks for permission, registers the service
   * worker (`registro` is the registration, `None` when it is unsupported or
   * fails) and only then subscribes.
   */
  function InitPushNotifications(suportado: bool, atual: Permissao, resposta: Permissao, registro: Option<string>,
                                 apiBaseUrl: string, vapid: string, token: string, atob: string -> Option<string>,
                                 assinatura: Option<string>, envioFalha: bool): (r: Option<Execucao>)
    ensures r.Some? <==> RequestNotificationPermission(suportado, atual, resposta).concedida && registro.Some?
    ensures r.Some? ==> r.value == SubscribeToPush(apiBaseUrl, vapid, token, atob, assinatura, envioFalha)
  {
    if !RequestNotificationPermission(suportado, atual, resposta).concedida then None
    else if registro.None? then None
    else Some(SubscribeToPush(apiBaseUrl, vapid, token, atob, assinatura, envioFalha))
  }

  /** Nothing reaches the backend from a user who refused notifications. */
  lemma RecusaNadaEnvia(suportado: bool, resposta: Permissao, registro: Option<string>, apiBaseUrl: string,
                        vapid: string, token: string, atob: string -> Option<string>,
                        assinatura: Option<string>, envioFalha: bool)
    ensures InitPushNotifications(suportado, Denied, resposta, registro, apiBaseUrl, vapid, token, atob,
                                  assinatura, envioFalha).None?
  {
  }
}
