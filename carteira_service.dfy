/**
 * `WalletService`: crediting a provider's wallet when a booking payment is
 * confirmed, net of the platform commission, at most once per payment.
 */
module CarteiraServico {
  import opened Wrappers
  import opened Tempo
  import opened Numeros
  import opened Dominio
  import opened AgendamentoEntidade
  import opened Financeiro

  /** A decimal rate `unidades / 10^casas` (a `BigDecimal` of non-negative scale). */
  datatype Aliquota = Aliquota(unidades: int, casas: nat)

  /** The default commission, 0.07. */
  const COMISSAO_PADRAO: Aliquota := Aliquota(7, 2)

  /**
   * The commission on a gross value in cents: the product rounded half-up
   * back to two decimals, that is to whole cents.
   */
  function Taxa(bruto: Centavos, comissao: Aliquota): (t: Centavos)
    ensures bruto * comissao.unidades >= 0 ==> t >= 0
    ensures -(Pow10(comissao.casas) as int) <= 2 * (bruto * comissao.unidades - t * Pow10(comissao.casas)) <= Pow10(comissao.casas)
  {
    RoundHalfUp(bruto * comissao.unidades, Pow10(comissao.casas))
  }

  /** At the default rate the commission is (7g + 50) div 100. */
  lemma TaxaPadrao(bruto: Centavos)
    requires bruto >= 0
    ensures Taxa(bruto, COMISSAO_PADRAO) == (7 * bruto + 50) / 100
  {
    assert Pow10(2) == 100;
    assert (2 * (7 * bruto) + 100) / 200 == (7 * bruto + 50) / 100;
  }

  /** From q * d < n * d with d positive, q is below n. */
  lemma CancelarFator(q: int, n: int, d: int)
    requires d > 0 && q * d < n * d
    ensures q < n
  {
  }

  lemma MultiplicarMonotono(x: int, a: int, b: int)
    requires x >= 0 && a <= b
    ensures x * a <= x * b
  {
  }

  /**
   * For a rate between 0 and 1 the commission lies between 0 and the gross
   * value, so commission and net are both non-negative and add up to the gross value.
   */
  lemma TaxaLimitada(bruto: Centavos, comissao: Aliquota)
    requires bruto >= 0 && 0 <= comissao.unidades <= Pow10(comissao.casas)
    ensures 0 <= Taxa(bruto, comissao) <= bruto
    ensures 0 <= bruto - Taxa(bruto, comissao) <= bruto
  {
    var d: int := Pow10(comissao.casas);
    var num := bruto * comissao.unidades;
    var t := Taxa(bruto, comissao);
    MultiplicarMonotono(bruto, 0, comissao.unidades);
    assert num >= 0;
    MultiplicarMonotono(bruto, comissao.unidades, d);
    ArredondadoAteBruto(num, d, t, bruto);
    assert 0 <= t <= bruto;
  }

  /** A rounded quotient of a numerator at most `bruto * d` is at most `bruto`. */
  lemma ArredondadoAteBruto(num: int, d: int, t: int, bruto: int)
    requires d > 0 && num <= bruto * d && 2 * (num - t * d) >= -d
    ensures t <= bruto
  {
    assert 2 * (t * d) <= 2 * num + d;
    assert (bruto + 1) * d == bruto * d + d;
    CancelarFator(t, bruto + 1, d);
  }

  /** Gross 100.00 at the default rate gives commission 7.00 and net 93.00. */
  lemma ExemploCem()
    ensures Taxa(10000, COMISSAO_PADRAO) == 700
    ensures 10000 - Taxa(10000, COMISSAO_PADRAO) == 9300
  {
    TaxaPadrao(10000);
  }

  class WalletService {
    const wallets: WalletRepository
    const transacoes: TransacaoRepository
    const comissao: Aliquota

    constructor (wallets: WalletRepository, transacoes: TransacaoRepository, comissao: Aliquota)
      ensures this.wallets == wallets && this.transacoes == transacoes && this.comissao == comissao
    {
      this.wallets := wallets;
      this.transacoes := transacoes;
      this.comissao := comissao;
    }

    ghost predicate Valid()
      reads this, wallets, transacoes
    {
      Conciliado(wallets.porPrestador, transacoes.linhas)
    }

    /**
     * `creditarPorPagamentoConfirmado`: nothing happens when the payment is
     * already in the ledger or the gross value is null or not positive;
     * otherwise the provider's wallet (created at zero when missing) gains
     * the net value and one credit line records gross, commission and net.
     */
    method CreditarPorPagamentoConfirmado(agendamento: Agendamento, pagamentoId: int, agora: Instante)
      requires agendamento.prestador.Some?
      requires Valid()
      modifies wallets, transacoes
      ensures Valid()
      ensures old(transacoes.ExistePagamento(pagamentoId)) || agendamento.valorServico.GetOr(0) <= 0 ==>
        wallets.porPrestador == old(wallets.porPrestador) && wallets.proximoId == old(wallets.proximoId)
        && transacoes.linhas == old(transacoes.linhas) && transacoes.proximoId == old(transacoes.proximoId)
      ensures !old(transacoes.ExistePagamento(pagamentoId)) && agendamento.valorServico.GetOr(0) > 0 ==>
        var bruto := agendamento.valorServico.value;
        var taxa := Taxa(bruto, comissao);
        var pid := agendamento.prestador.value.id;
        var w := WalletOuNova(old(wallets.porPrestador), pid, old(wallets.proximoId));
        transacoes.linhas == old(transacoes.linhas) + [TransacaoWallet(old(transacoes.proximoId), pid, CREDITO_AGENDAMENTO,
            bruto, Some(taxa), bruto - taxa, Some(agendamento.id), Some(pagamentoId), None, agora)]
        && wallets.porPrestador == old(wallets.porPrestador)[pid := w.(saldoDisponivel := w.saldoDisponivel + bruto - taxa)]
        && wallets.proximoId == old(wallets.proximoId) + (if pid in old(wallets.porPrestador) then 0 else 1)
        && transacoes.proximoId == old(transacoes.proximoId) + 1
      ensures transacoes.ExistePagamento(pagamentoId) || agendamento.valorServico.GetOr(0) <= 0
    {
      if exists i :: 0 <= i < |transacoes.linhas| && transacoes.linhas[i].pagamentoId == Some(pagamentoId) {
        return;
      }
      var bruto := agendamento.valorServico.GetOr(0);
      if bruto <= 0 {
        return;
      }
      var taxa := Taxa(bruto, comissao);
      var liquido := bruto - taxa;
      var pid := agendamento.prestador.value.id;

      var wallet: Wallet;
      if pid in wallets.porPrestador {
        wallet := wallets.porPrestador[pid];
      } else {
        wallet := Wallet(wallets.proximoId, pid, 0, None);
        ConciliadoNovaWallet(wallets.porPrestador, transacoes.linhas, wallet);
        wallets.porPrestador := wallets.porPrestador[pid := wallet];
        wallets.proximoId := wallets.proximoId + 1;
      }

      var t := TransacaoWallet(transacoes.proximoId, pid, CREDITO_AGENDAMENTO, bruto, Some(taxa), liquido,
                               Some(agendamento.id), Some(pagamentoId), None, agora);
      var novo := wallet.(saldoDisponivel := wallet.saldoDisponivel + liquido);
      ConciliadoLancamento(wallets.porPrestador, transacoes.linhas, t, novo);
      transacoes.linhas := transacoes.linhas + [t];
      transacoes.proximoId := transacoes.proximoId + 1;
      wallets.porPrestador := wallets.porPrestador[pid := novo];
      assert transacoes.linhas[|transacoes.linhas| - 1].pagamentoId == Some(pagamentoId);
    }
  }
}
