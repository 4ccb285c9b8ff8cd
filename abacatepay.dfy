/**
 * The AbacatePay integration: how a booking becomes a one-time PIX charge
 * request, and how the gateway's answer becomes a billing result. The HTTP
 * exchange itself is a parameter: the answer (or the exception) it produced.
 */
module AbacatePay {
  import opened Wrappers
  import opened Tempo
  import opened Texto
  import opened Numeros
  import opened Dominio
  import opened AgendamentoEntidade

  /** What the gateway answers for a created charge. */
  datatype BillingResult = BillingResult(billingId: Option<string>, paymentUrl: Option<string>)

  /** The `app.abacatepay` settings. */
  datatype Propriedades = Propriedades(
    apiKey: Option<string>,
    baseUrl: string,
    webhookSecret: Option<string>,
    frontendBaseUrl: string,
    allowCoupons: bool,
    couponCodes: seq<string>)

  const PROPRIEDADES_PADRAO: Propriedades :=
    Propriedades(Some(""), "https://api.abacatepay.com/v1", Some(""), "http://localhost:3000", false, [])

  const MAX_CUPONS: nat := 50
  const FREQUENCY_ONE_TIME: string := "ONE_TIME"
  const METHOD_PIX: string := "PIX"
  const NAO_INFORMADO: string := "00000000000"

  datatype Produto = Produto(externalId: string, name: string, description: string, quantity: int, price: int)
  datatype Pagador = Pagador(name: string, cellphone: string, email: string, taxId: string)

  /** The body of `POST /billing/create`. */
  datatype Requisicao = Requisicao(
    frequency: string,
    methods: seq<string>,
    products: seq<Produto>,
    returnUrl: string,
    completionUrl: string,
    customer: Pagador,
    externalId: string,
    allowCoupons: Option<bool>,
    coupons: Option<seq<string>>)

  datatype DadosResposta = DadosResposta(id: Option<string>, url: Option<string>)

  /** How the exchange ended: an exception, or a status with a body whose `data` may be null. */
  datatype RespostaHttp = Excecao | Resposta(status: int, corpo: Option<Option<DadosResposta>>)

  /** `isEnabled`: an API key that is neither null nor blank. */
  predicate Habilitado(props: Propriedades)
  {
    props.apiKey.Some? && !IsBlank(props.apiKey.value)
  }

  /**
   * The charge price in cents: a missing price or one below 1 BRL is
   * charged as 1 BRL; the amount in cents is narrowed to an `int` and
   * raised to 100 when that lands below it.
   */
  function PrecoEmCentavos(valor: Option<Centavos>): (r: int)
    ensures r >= 100
    ensures valor.None? || valor.value < 100 ==> r == 100
    ensures valor.Some? && 100 <= valor.value < 0x8000_0000 ==> r == valor.value
  {
    var centavos := if valor.None? || valor.value < 100 then 100 else valor.value;
    var preco := Int32(centavos);
    if preco < 100 then 100 else preco
  }

  /** A price of 2^32 cents plus 50.00 BRL wraps around and is charged as 50.00 BRL. */
  lemma PrecoAcimaDoInt()
    ensures PrecoEmCentavos(Some(0x1_0000_0000 + 5000)) == 5000
  {
  }

  /** `"ag-" + id`, the reference a booking's charge carries. */
  function ExternalIdAgendamento(id: int): string
  {
    "ag-" + LongToString(id)
  }

  /** The line terminators Java's `$` may precede at the end of the input. */
  predicate TerminadorDeLinha(t: string)
  {
    t == "\n" || t == "\r\n" || t == "\r" || t == "\U{0085}" || t == "\U{2028}" || t == "\U{2029}"
  }

  /**
   * `replaceAll("/$", "")`: the one '/' that ends the text, or that stands
   * just before a line terminator ending the text, is removed.
   */
  function SemBarraFinal(s: string): (r: string)
    ensures |r| == |s| || |r| == |s| - 1
  {
    if |s| >= 1 && s[|s| - 1] == '/' then s[..|s| - 1]
    else if |s| >= 2 && s[|s| - 2] == '/' && TerminadorDeLinha(s[|s| - 1..]) then s[..|s| - 2] + s[|s| - 1..]
    else if |s| >= 3 && s[|s| - 3] == '/' && s[|s| - 2..] == "\r\n" then s[..|s| - 3] + "\r\n"
    else s
  }

  /** A trailing '/' is dropped, and only one. */
  lemma SemBarraFinalDeUmaBarra(b: string)
    ensures SemBarraFinal(b + "/") == b
  {
  }

  /** A URL with no trailing '/' and no line terminator at its end is kept as it is. */
  lemma SemBarraFinalSemBarra(s: string)
    requires |s| > 0 && s[|s| - 1] != '/' && !TerminadorDeLinha(s[|s| - 1..])
    ensures SemBarraFinal(s) == s
  {
  }

  /** Where the gateway sends the client back: the front end's bookings page. */
  function ReturnUrl(frontendBaseUrl: string): (r: string)
    ensures EndsWith(r, "/cliente/agendamentos")
  {
    var r := SemBarraFinal(frontendBaseUrl) + "/cliente/agendamentos";
    assert r[|r| - |"/cliente/agendamentos"|..] == "/cliente/agendamentos";
    r
  }

  /** The coupon list sent: null when none is configured, otherwise at most the first fifty. */
  function Cupons(codigos: seq<string>): (r: Option<seq<string>>)
    ensures r.None? <==> |codigos| == 0
    ensures r.Some? ==> |r.value| <= MAX_CUPONS && |r.value| <= |codigos| && r.value == codigos[..|r.value|]
    ensures r.Some? && |codigos| <= MAX_CUPONS ==> r.value == codigos
    ensures r.Some? && |codigos| > MAX_CUPONS ==> |r.value| == MAX_CUPONS
  {
    if |codigos| == 0 then None
    else if |codigos| > MAX_CUPONS then Some(codigos[..MAX_CUPONS])
    else Some(codigos)
  }

  /** `replaceAll("\\D", "")`: the ASCII digits of `s`, in order. */
  function SoDigitos(s: string): (r: string)
    ensures AllDigits(r) && |r| <= |s|
    ensures AllDigits(s) ==> r == s
    ensures forall c :: c in r <==> c in s && IsDigit(c)
  {
    if s == [] then []
    else
      assert s == [s[0]] + s[1..];
      (if IsDigit(s[0]) then [s[0]] else []) + SoDigitos(s[1..])
  }

  /**
   * The digits of two texts side by side are the digits of each, in order;
   * with the one-character case this says every digit is kept and every
   * other character dropped, in the order they come.
   */
  lemma {:induction false} SoDigitosConcat(a: string, b: string)
    ensures SoDigitos(a + b) == SoDigitos(a) + SoDigitos(b)
  {
    if a != [] {
      assert (a + b)[0] == a[0] && (a + b)[1..] == a[1..] + b;
      SoDigitosConcat(a[1..], b);
    } else {
      assert a + b == b;
    }
  }

  /** One character: a digit is kept, anything else dropped. */
  lemma SoDigitosDeUm(c: char)
    ensures SoDigitos([c]) == if IsDigit(c) then [c] else []
  {
    assert [c][1..] == [];
  }

  /** Keeping the digits of text that holds only digits changes nothing, so normalising twice is normalising once. */
  lemma SoDigitosIdempotente(s: string)
    ensures SoDigitos(SoDigitos(s)) == SoDigitos(s)
  {
  }

  /** `normalizarCelular` and `normalizarCpf`: eleven zeros for null, else the digits. */
  function Normalizar(s: Option<string>): (r: string)
    ensures AllDigits(r)
    ensures s.None? ==> r == NAO_INFORMADO
    ensures s.Some? ==> r == SoDigitos(s.value)
  {
    if s.None? then NAO_INFORMADO else SoDigitos(s.value)
  }

  /** `dd/MM/yyyy HH:mm` of a local date-time. */
  function FormatarDataHora(t: Instante): string
  {
    var c := CivilDeDias(DataDe(t));
    var h := HoraDoDia(t);
    Pad(LongToString(c.dia), 2) + "/" + Pad(LongToString(c.mes), 2) + "/" + Pad(LongToString(c.ano), 4)
      + " " + Pad(LongToString(h / 3600), 2) + ":" + Pad(LongToString(h % 3600 / 60), 2)
  }

  /**
   * The request `createBilling` sends for a booking, or nothing when no API
   * key is configured (then no request is made at all).
   */
  function RequisicaoCobranca(props: Propriedades, a: Agendamento): (r: Option<Requisicao>)
    requires a.cliente.Some? && a.prestador.Some?
    ensures r.None? <==> !Habilitado(props)
    ensures r.Some? ==>
      r.value.externalId == ExternalIdAgendamento(a.id)
      && |r.value.products| == 1 && r.value.products[0].externalId == r.value.externalId
      && r.value.products[0].quantity == 1 && r.value.products[0].price == PrecoEmCentavos(a.valorServico)
      && r.value.returnUrl == r.value.completionUrl == ReturnUrl(props.frontendBaseUrl)
      && r.value.methods == [METHOD_PIX] && r.value.frequency == FREQUENCY_ONE_TIME
      && r.value.customer == Pagador(a.cliente.value.nome.GetOr("Cliente"), Normalizar(a.cliente.value.telefone),
                                            a.cliente.value.email.GetOr(""), Normalizar(a.cliente.value.cpf))
      && r.value.coupons == Cupons(props.couponCodes)
      && (r.value.allowCoupons.Some? <==> props.allowCoupons) && (props.allowCoupons ==> r.value.allowCoupons == Some(true))
  {
    if !Habilitado(props) then None
    else
      var cliente := a.cliente.value;
      var prestador := a.prestador.value;
      var externalId := ExternalIdAgendamento(a.id);
      var returnUrl := ReturnUrl(props.frontendBaseUrl);
      var produto := Produto(externalId,
                             "Atendimento - " + prestador.nomeFantasia.GetOr("Prestador"),
                             "Agendamento " + FormatarDataHora(a.dataHora) + " - " + prestador.nomeFantasia.GetOr(""),
                             1, PrecoEmCentavos(a.valorServico));
      var pagador := Pagador(cliente.nome.GetOr("Cliente"), Normalizar(cliente.telefone),
                                    cliente.email.GetOr(""), Normalizar(cliente.cpf));
      Some(Requisicao(FREQUENCY_ONE_TIME, [METHOD_PIX], [produto], returnUrl, returnUrl, pagador, externalId,
                      if props.allowCoupons then Some(true) else None, Cupons(props.couponCodes)))
  }

  /**
   * `createBilling`: null when disabled, on an exception, on a non-2xx
   * status, or when the body or its `data` is null; otherwise the charge's
   * id and payment URL.
   */
  function CreateBilling(props: Propriedades, a: Agendamento, resposta: RespostaHttp): (r: Option<BillingResult>)
    requires a.cliente.Some? && a.prestador.Some?
    ensures r.Some? <==> Habilitado(props) && resposta.Resposta? && 200 <= resposta.status <= 299
                         && resposta.corpo.Some? && resposta.corpo.value.Some?
    ensures r.Some? ==> r.value == BillingResult(resposta.corpo.value.value.id, resposta.corpo.value.value.url)
  {
    match RequisicaoCobranca(props, a)
    case None => None
    case Some(_) =>
      if resposta.Resposta? && 200 <= resposta.status <= 299 && resposta.corpo.Some? && resposta.corpo.value.Some? then
        Some(BillingResult(resposta.corpo.value.value.id, resposta.corpo.value.value.url))
      else None
  }
}
