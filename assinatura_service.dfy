/**
 * `AssinaturaService`: the provider's monthly subscription. A request
 * either finds a running ATIVA record or opens an ATRASADA one awaiting
 * payment; the payment callback turns a record ATIVA for thirty days.
 */
module AssinaturaServico {
  import opened Wrappers
  import opened Tempo
  import opened Numeros
  import opened Dominio
  import opened Financeiro
  import opened AbacatePay
  import PrestadorServico

  /** The monthly price used when none is configured: 15.00. */
  const VALOR_MENSAL_PADRAO: Centavos := 1500

  const DIAS_DE_VIGENCIA: int := 30

  datatype AssinaturaResumo = AssinaturaResumo(
    status: StatusAssinatura,
    dataInicio: Option<Data>,
    dataFim: Option<Data>,
    paymentUrl: Option<string>)

  /** The external reference a subscription charge is created with. */
  function ExternalIdAssinatura(id: int): string
  {
    "sub-" + LongToString(id)
  }

  /**
   * `a` comes no later than `b` under `ORDER BY dataFim DESC`, with a null
   * end date sorting first as it does by default in PostgreSQL.
   */
  predicate NaoDepois(a: Assinatura, b: Assinatura)
  {
    a.dataFim.None? || (b.dataFim.Some? && a.dataFim.value >= b.dataFim.value)
  }

  predicate AtivaDe(a: Assinatura, prestadorId: int)
  {
    a.prestadorId == prestadorId && a.status == ATIVA
  }

  /**
   * `findFirstByPrestadorIdAndStatusOrderByDataFimDesc(id, ATIVA)`: the
   * provider's ATIVA record that comes first by end date, latest first.
   */
  function UltimaAtiva(linhas: seq<Assinatura>, prestadorId: int): (r: Option<Assinatura>)
    ensures r.Some? ==> r.value in linhas && AtivaDe(r.value, prestadorId)
    ensures r.Some? ==> forall a :: a in linhas && AtivaDe(a, prestadorId) ==> NaoDepois(r.value, a)
    ensures r.None? <==> forall a :: a in linhas ==> !AtivaDe(a, prestadorId)
  {
    if linhas == [] then None
    else
      var resto := UltimaAtiva(linhas[1..], prestadorId);
      assert forall a :: a in linhas ==> a == linhas[0] || a in linhas[1..];
      if !AtivaDe(linhas[0], prestadorId) then resto
      else if resto.None? || NaoDepois(linhas[0], resto.value) then Some(linhas[0])
      else resto
  }

  /** `prestadorComAssinaturaAtiva`'s filter on that record: an end date, and not before today. */
  predicate Vigente(linhas: seq<Assinatura>, prestadorId: int, hoje: Data)
  {
    var u := UltimaAtiva(linhas, prestadorId);
    u.Some? && u.value.dataFim.Some? && u.value.dataFim.value >= hoje
  }

  /**
   * When every ATIVA record has an end date, a provider's subscription is
   * running exactly when some ATIVA record of theirs ends today or later.
   */
  lemma VigenteSeAlgumaVigente(linhas: seq<Assinatura>, prestadorId: int, hoje: Data)
    requires forall a :: a in linhas && a.status == ATIVA ==> a.dataFim.Some?
    ensures Vigente(linhas, prestadorId, hoje) <==>
      exists a :: a in linhas && AtivaDe(a, prestadorId) && a.dataFim.Some? && a.dataFim.value >= hoje
  {
    var u := UltimaAtiva(linhas, prestadorId);
    if u.Some? {
      assert AtivaDe(u.value, prestadorId);
    } else {
      assert forall a :: a in linhas ==> !AtivaDe(a, prestadorId);
    }
  }

  /** The summary of a found record, or CANCELADA with no dates when there is none. */
  function ResumoDe(u: Option<Assinatura>): (r: AssinaturaResumo)
    ensures r.paymentUrl.None?
    ensures u.None? ==> r == AssinaturaResumo(CANCELADA, None, None, None)
    ensures u.Some? ==> r.status == u.value.status && r.dataInicio == Some(u.value.dataInicio) && r.dataFim == u.value.dataFim
  {
    match u
    case None => AssinaturaResumo(CANCELADA, None, None, None)
    case Some(a) => AssinaturaResumo(a.status, Some(a.dataInicio), a.dataFim, None)
  }

  class AssinaturaService {
    const prestadores: PrestadorRepository
    const assinaturas: AssinaturaRepository
    const wallets: WalletRepository
    const transacoes: TransacaoRepository
    const valorMensal: Option<Centavos>

    constructor (prestadores: PrestadorRepository, assinaturas: AssinaturaRepository, wallets: WalletRepository,
                 transacoes: TransacaoRepository, valorMensal: Option<Centavos>)
      ensures this.prestadores == prestadores && this.assinaturas == assinaturas && this.wallets == wallets
      ensures this.transacoes == transacoes && this.valorMensal == valorMensal
    {
      this.prestadores := prestadores;
      this.assinaturas := assinaturas;
      this.wallets := wallets;
      this.transacoes := transacoes;
      this.valorMensal := valorMensal;
    }

    ghost predicate Valid()
      reads this, assinaturas, wallets, transacoes
    {
      assinaturas.Valid() && Conciliado(wallets.porPrestador, transacoes.linhas)
    }

    /** `obterStatusAssinatura`: the latest ATIVA record as it is, expired or not. */
    function ObterStatusAssinatura(keycloakId: string): (r: Result<AssinaturaResumo>)
      reads this, prestadores, assinaturas
      ensures r.Failure? <==> PrestadorPorKeycloak(prestadores.prestadores, keycloakId).None?
      ensures r.Success? ==> r.value.paymentUrl.None? && (r.value.status == ATIVA || r.value.status == CANCELADA)
      ensures r.Success? ==>
        var pid := PrestadorPorKeycloak(prestadores.prestadores, keycloakId).value.id;
        (r.value.status == CANCELADA <==> forall a :: a in assinaturas.linhas ==> !AtivaDe(a, pid))
    ensures r.Success? && r.value.status == CANCELADA ==> r.value.dataInicio.None? && r.value.dataFim.None?
    ensures r.Success? && r.value.status == ATIVA ==>
      var pid := PrestadorPorKeycloak(prestadores.prestadores, keycloakId).value.id;
      exists a :: a in assinaturas.linhas && AtivaDe(a, pid)
        && r.value.dataInicio == Some(a.dataInicio) && r.value.dataFim == a.dataFim
        && (forall b :: b in assinaturas.linhas && AtivaDe(b, pid) ==> NaoDepois(a, b))
    {
      match PrestadorPorKeycloak(prestadores.prestadores, keycloakId)
      case None => Failure(PrestadorServico.PRESTADOR_NAO_ENCONTRADO)
      case Some(p) => Success(ResumoDe(UltimaAtiva(assinaturas.linhas, p.id)))
    }

    /** `prestadorComAssinaturaAtiva`. */
    function PrestadorComAssinaturaAtiva(keycloakId: string, hoje: Data): (r: Result<bool>)
      reads this, prestadores, assinaturas
      ensures r.Failure? <==> PrestadorPorKeycloak(prestadores.prestadores, keycloakId).None?
      ensures r.Success? ==>
        (r.value <==> Vigente(assinaturas.linhas, PrestadorPorKeycloak(prestadores.prestadores, keycloakId).value.id, hoje))
    {
      match PrestadorPorKeycloak(prestadores.prestadores, keycloakId)
      case None => Failure(PrestadorServico.PRESTADOR_NAO_ENCONTRADO)
      case Some(p) => Success(Vigente(assinaturas.linhas, p.id, hoje))
    }

    /**
     * `iniciarOuRenovarAssinatura`: a running subscription is reported and
     * nothing is written; otherwise one ATRASADA record starting today is
     * added, and the charge is requested for `"sub-" + id` and the monthly
     * price; the gateway's answer, when there is one, supplies the record's
     * billing id and the returned payment link. `cobrar` stands for the
     * gateway call: given the external reference and the amount, its answer.
     */
    method IniciarOuRenovar(keycloakId: string, hoje: Data, cobrar: (string, Centavos) -> Option<BillingResult>)
      returns (r: Result<AssinaturaResumo>)
      requires Valid()
      modifies assinaturas
      ensures Valid()
      ensures r.Failure? <==> PrestadorPorKeycloak(prestadores.prestadores, keycloakId).None?
      ensures r.Failure? ==> r.error == PrestadorServico.PRESTADOR_NAO_ENCONTRADO
      ensures r.Failure? || Vigente(old(assinaturas.linhas), PrestadorPorKeycloak(prestadores.prestadores, keycloakId).value.id, hoje) ==>
        assinaturas.linhas == old(assinaturas.linhas) && assinaturas.proximoId == old(assinaturas.proximoId)
      ensures r.Success? && Vigente(old(assinaturas.linhas), PrestadorPorKeycloak(prestadores.prestadores, keycloakId).value.id, hoje) ==>
        r.value == ResumoDe(UltimaAtiva(old(assinaturas.linhas), PrestadorPorKeycloak(prestadores.prestadores, keycloakId).value.id))
      ensures r.Success? && !Vigente(old(assinaturas.linhas), PrestadorPorKeycloak(prestadores.prestadores, keycloakId).value.id, hoje) ==>
        var cobranca := cobrar(ExternalIdAssinatura(old(assinaturas.proximoId)), valorMensal.GetOr(VALOR_MENSAL_PADRAO));
        var nova := Assinatura(old(assinaturas.proximoId), PrestadorPorKeycloak(prestadores.prestadores, keycloakId).value.id,
                               ATRASADA, hoje, None, None, if cobranca.Some? then cobranca.value.billingId else None,
                               valorMensal.GetOr(VALOR_MENSAL_PADRAO));
        assinaturas.linhas == old(assinaturas.linhas) + [nova]
        && assinaturas.proximoId == old(assinaturas.proximoId) + 1
        && r.value == AssinaturaResumo(ATRASADA, Some(hoje), None, if cobranca.Some? then cobranca.value.paymentUrl else None)
    {
      var prestador := PrestadorPorKeycloak(prestadores.prestadores, keycloakId);
      if prestador.None? {
        return Failure(PrestadorServico.PRESTADOR_NAO_ENCONTRADO);
      }
      var pid := prestador.value.id;
      var ativa := UltimaAtiva(assinaturas.linhas, pid);
      if ativa.Some? && ativa.value.dataFim.Some? && !(ativa.value.dataFim.value < hoje) {
        return Success(ResumoDe(ativa));
      }
      var assinatura := Assinatura(assinaturas.proximoId, pid, ATRASADA, hoje, None, None, None,
                                   if valorMensal.Some? then valorMensal.value else VALOR_MENSAL_PADRAO);
      var cobranca := cobrar(ExternalIdAssinatura(assinatura.id), assinatura.valorAtual);
      if cobranca.Some? {
        assinatura := assinatura.(billingId := cobranca.value.billingId);
      }
      assinaturas.linhas := assinaturas.linhas + [assinatura];
      assinaturas.proximoId := assinaturas.proximoId + 1;
      var link := if cobranca.Some? then cobranca.value.paymentUrl else None;
      return Success(AssinaturaResumo(assinatura.status, Some(assinatura.dataInicio), assinatura.dataFim, link));
    }

    /**
     * The tables after a paid subscription charge: record `assinaturaId`
     * becomes ATIVA from today for thirty days, with the payment time and the
     * billing id overwritten, and its provider has a wallet, a new zero one
     * when they had none.
     */
    twostate predicate PagamentoProcessado(assinaturaId: int, billingId: Option<string>, agora: Instante)
      reads this, assinaturas, wallets
    {
      exists i :: 0 <= i < |old(assinaturas.linhas)| && old(assinaturas.linhas)[i].id == assinaturaId
        && assinaturas.linhas == old(assinaturas.linhas)[i := old(assinaturas.linhas)[i].(
             status := ATIVA, dataInicio := DataDe(agora), dataFim := Some(DataDe(agora) + DIAS_DE_VIGENCIA),
             ultimoPagamentoEm := Some(agora), billingId := billingId)]
        && var pid := old(assinaturas.linhas)[i].prestadorId;
           wallets.porPrestador == old(wallets.porPrestador)[pid := WalletOuNova(old(wallets.porPrestador), pid, old(wallets.proximoId))]
           && wallets.proximoId == old(wallets.proximoId) + (if pid in old(wallets.porPrestador) then 0 else 1)
    }

    /**
     * `processarPagamentoAssinatura`: an unknown id is refused; otherwise
     * the record becomes ATIVA from today for thirty days with the payment
     * time and billing id overwritten, and the provider gets a zero-balance
     * wallet if they had none (an existing one is left as it is).
     */
    method ProcessarPagamentoAssinatura(assinaturaId: int, billingId: Option<string>, agora: Instante)
      returns (r: Result<()>)
      requires Valid()
      modifies assinaturas, wallets
      ensures Valid()
      ensures assinaturas.proximoId == old(assinaturas.proximoId)
      ensures r.Failure? <==> forall a :: a in old(assinaturas.linhas) ==> a.id != assinaturaId
      ensures r.Failure? ==>
        r.error == "Assinatura não encontrada para id=" + LongToString(assinaturaId)
        && assinaturas.linhas == old(assinaturas.linhas)
        && wallets.porPrestador == old(wallets.porPrestador) && wallets.proximoId == old(wallets.proximoId)
      ensures r.Success? ==> PagamentoProcessado(assinaturaId, billingId, agora)
    {
      var i := IndiceDe(assinaturas.linhas, (a: Assinatura) => a.id == assinaturaId);
      if i.None? {
        return Failure("Assinatura não encontrada para id=" + LongToString(assinaturaId));
      }
      var hoje := DataDe(agora);
      var a := assinaturas.linhas[i.value];
      assinaturas.linhas := assinaturas.linhas[i.value := a.(status := ATIVA, dataInicio := hoje,
        dataFim := Some(hoje + DIAS_DE_VIGENCIA), ultimoPagamentoEm := Some(agora), billingId := billingId)];

      var pid := a.prestadorId;
      if pid !in wallets.porPrestador {
        var w := Wallet(wallets.proximoId, pid, 0, None);
        ConciliadoNovaWallet(wallets.porPrestador, transacoes.linhas, w);
        wallets.porPrestador := wallets.porPrestador[pid := w];
        wallets.proximoId := wallets.proximoId + 1;
      }
      return Success(());
    }
  }
}
