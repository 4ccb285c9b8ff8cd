/**
 * `SaqueService`: the wallet summary shown on the dashboard and the
 * withdrawal request, which sweeps the whole balance at most once per
 * cooldown period.
 */
module SaqueServico {
  import opened Wrappers
  import opened Tempo
  import opened Numeros
  import opened Dominio
  import opened Financeiro
  import PrestadorServico

  const DIAS_ENTRE_SAQUES: int := 10

  const SEM_WALLET: string := "Você não possui saldo disponível para saque."
  const SALDO_INSUFICIENTE: string := "Saldo insuficiente para saque."

  /** The cooldown message, naming the first day a withdrawal is allowed again. */
  function MensagemDeCarencia(dias: int, ultimo: Data): string
  {
    "Saque permitido apenas a cada " + LongToString(dias) + " dias. Próximo saque disponível em: "
      + IsoData(ultimo + dias) + "."
  }

  datatype WalletResumo = WalletResumo(
    saldoDisponivel: Centavos,
    dataUltimoSaque: Option<Data>,
    proximoSaqueDisponivelEm: Data,
    podeSolicitarSaque: bool)

  /**
   * `obterResumo` for a provider whose wallet may be missing (then read as
   * a zero balance that has never been withdrawn from).
   */
  function Resumo(wallet: Option<Wallet>, hoje: Data, dias: int): (r: WalletResumo)
    ensures wallet.None? ==> r.saldoDisponivel == 0 && r.dataUltimoSaque.None?
    ensures wallet.Some? ==> r.saldoDisponivel == wallet.value.saldoDisponivel && r.dataUltimoSaque == wallet.value.dataUltimoSaque
    ensures r.proximoSaqueDisponivelEm == (if r.dataUltimoSaque.None? then hoje else r.dataUltimoSaque.value + dias)
    ensures r.podeSolicitarSaque <==> r.saldoDisponivel > 0 && hoje >= r.proximoSaqueDisponivelEm
  {
    var w := if wallet.Some? then wallet.value else Wallet(0, 0, 0, None);
    var proximo := if w.dataUltimoSaque.None? then hoje else w.dataUltimoSaque.value + dias;
    WalletResumo(w.saldoDisponivel, w.dataUltimoSaque, proximo, w.saldoDisponivel > 0 && !(hoje < proximo))
  }

  /**
   * Why `solicitarSaque` refuses a wallet, in the order it checks: no
   * wallet, nothing to withdraw, fewer than `dias` days since the last one.
   */
  function Recusa(wallet: Option<Wallet>, hoje: Data, dias: int): (r: Option<string>)
    ensures r.None? <==> wallet.Some? && wallet.value.saldoDisponivel > 0
                         && (wallet.value.dataUltimoSaque.None? || hoje >= wallet.value.dataUltimoSaque.value + dias)
    ensures wallet.None? ==> r == Some(SEM_WALLET)
    ensures wallet.Some? && wallet.value.saldoDisponivel <= 0 ==> r == Some(SALDO_INSUFICIENTE)
  {
    if wallet.None? then Some(SEM_WALLET)
    else if wallet.value.saldoDisponivel <= 0 then Some(SALDO_INSUFICIENTE)
    else if wallet.value.dataUltimoSaque.Some? && hoje - wallet.value.dataUltimoSaque.value < dias then
      Some(MensagemDeCarencia(dias, wallet.value.dataUltimoSaque.value))
    else None
  }

  /** The summary's flag says exactly whether a withdrawal would go through on the same day. */
  lemma ResumoConcordaComSaque(wallet: Option<Wallet>, hoje: Data, dias: int)
    ensures Resumo(wallet, hoje, dias).podeSolicitarSaque <==> Recusa(wallet, hoje, dias).None?
  {
  }

  /** The cooldown ends exactly `dias` days after the last withdrawal: one day earlier is refused, naming that day. */
  lemma CarenciaExata(w: Wallet, dias: int)
    requires w.saldoDisponivel > 0 && w.dataUltimoSaque.Some? && dias > 0
    ensures Recusa(Some(w), w.dataUltimoSaque.value + dias, dias).None?
    ensures Recusa(Some(w), w.dataUltimoSaque.value + dias - 1, dias) == Some(MensagemDeCarencia(dias, w.dataUltimoSaque.value))
  {
  }

  class SaqueService {
    const prestadores: PrestadorRepository
    const wallets: WalletRepository
    const saques: SaqueRepository
    const transacoes: TransacaoRepository
    const diasEntreSaques: int

    constructor (prestadores: PrestadorRepository, wallets: WalletRepository, saques: SaqueRepository,
                 transacoes: TransacaoRepository, diasEntreSaques: int)
      ensures this.prestadores == prestadores && this.wallets == wallets && this.saques == saques
      ensures this.transacoes == transacoes && this.diasEntreSaques == diasEntreSaques
    {
      this.prestadores := prestadores;
      this.wallets := wallets;
      this.saques := saques;
      this.transacoes := transacoes;
      this.diasEntreSaques := diasEntreSaques;
    }

    ghost predicate Valid()
      reads this, wallets, transacoes
    {
      Conciliado(wallets.porPrestador, transacoes.linhas)
    }

    /** The caller's wallet, if the caller is a provider and has one. */
    function WalletDe(keycloakId: string): Option<Wallet>
      reads this, prestadores, wallets
    {
      match PrestadorPorKeycloak(prestadores.prestadores, keycloakId)
      case None => None
      case Some(p) => if p.id in wallets.porPrestador then Some(wallets.porPrestador[p.id]) else None
    }

    /** `obterResumo`: reads only; a missing wallet is not created. */
    function ObterResumo(keycloakId: string, hoje: Data): (r: Result<WalletResumo>)
      reads this, prestadores, wallets
      ensures r.Failure? <==> PrestadorPorKeycloak(prestadores.prestadores, keycloakId).None?
      ensures r.Success? ==> r.value == Resumo(WalletDe(keycloakId), hoje, diasEntreSaques)
    {
      if PrestadorPorKeycloak(prestadores.prestadores, keycloakId).None? then Failure(PrestadorServico.PRESTADOR_NAO_ENCONTRADO)
      else Success(Resumo(WalletDe(keycloakId), hoje, diasEntreSaques))
    }

    /**
     * `solicitarSaque`: on success the whole balance becomes one pending
     * withdrawal, the wallet is left at zero with today as its last
     * withdrawal, and one debit line records the amount; a refusal writes nothing.
     */
    method SolicitarSaque(keycloakId: string, agora: Instante) returns (r: Result<Saque>)
      requires Valid()
      modifies wallets, saques, transacoes
      ensures Valid()
      ensures PrestadorPorKeycloak(prestadores.prestadores, keycloakId).None? ==>
        r == Failure(PrestadorServico.PRESTADOR_NAO_ENCONTRADO)
      ensures PrestadorPorKeycloak(prestadores.prestadores, keycloakId).Some? ==>
        (r.Failure? <==> Recusa(old(WalletDe(keycloakId)), DataDe(agora), diasEntreSaques).Some?)
        && (r.Failure? ==> r.error == Recusa(old(WalletDe(keycloakId)), DataDe(agora), diasEntreSaques).value)
      ensures r.Failure? ==>
        wallets.porPrestador == old(wallets.porPrestador) && saques.linhas == old(saques.linhas)
        && transacoes.linhas == old(transacoes.linhas)
        && saques.proximoId == old(saques.proximoId) && transacoes.proximoId == old(transacoes.proximoId)
      ensures r.Success? ==>
        var w := old(WalletDe(keycloakId)).value;
        var valor := w.saldoDisponivel;
        r.value == Saque(old(saques.proximoId), w.prestadorId, valor, valor, StatusSaque.PENDENTE, agora)
        && saques.linhas == old(saques.linhas) + [r.value] && saques.proximoId == old(saques.proximoId) + 1
        && wallets.porPrestador == old(wallets.porPrestador)[w.prestadorId :=
             w.(saldoDisponivel := 0, dataUltimoSaque := Some(DataDe(agora)))]
        && transacoes.linhas == old(transacoes.linhas) + [TransacaoWallet(old(transacoes.proximoId), w.prestadorId,
             DEBITO_SAQUE, valor, Some(0), valor, None, None, Some(r.value.id), agora)]
        && transacoes.proximoId == old(transacoes.proximoId) + 1
    {
      var prestador := PrestadorPorKeycloak(prestadores.prestadores, keycloakId);
      if prestador.None? {
        return Failure(PrestadorServico.PRESTADOR_NAO_ENCONTRADO);
      }
      var pid := prestador.value.id;
      if pid !in wallets.porPrestador {
        return Failure(SEM_WALLET);
      }
      var wallet := wallets.porPrestador[pid];
      if wallet.saldoDisponivel <= 0 {
        return Failure(SALDO_INSUFICIENTE);
      }
      var hoje := DataDe(agora);
      var ultimo := wallet.dataUltimoSaque;
      if ultimo.Some? && hoje - ultimo.value < diasEntreSaques {
        return Failure(MensagemDeCarencia(diasEntreSaques, ultimo.value));
      }
      var valor := wallet.saldoDisponivel;
      var saque := Saque(saques.proximoId, pid, valor, valor, StatusSaque.PENDENTE, agora);
      saques.linhas := saques.linhas + [saque];
      saques.proximoId := saques.proximoId + 1;

      var novo := wallet.(saldoDisponivel := 0, dataUltimoSaque := Some(hoje));
      var t := TransacaoWallet(transacoes.proximoId, pid, DEBITO_SAQUE, valor, Some(0), valor, None, None, Some(saque.id), agora);
      ConciliadoLancamento(wallets.porPrestador, transacoes.linhas, t, novo);
      wallets.porPrestador := wallets.porPrestador[pid := novo];
      transacoes.linhas := transacoes.linhas + [t];
      transacoes.proximoId := transacoes.proximoId + 1;
      return Success(saque);
    }
  }
}
