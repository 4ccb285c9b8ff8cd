/**
 * The provider's money: the wallet (one per provider), the wallet ledger,
 * withdrawals and subscription records, with the tables that hold them and
 * the rule tying each wallet's balance to its ledger.
 */
module Financeiro {
  import opened Wrappers
  import opened Tempo
  import opened Numeros
  import opened Dominio

  datatype TipoTransacaoWallet = CREDITO_AGENDAMENTO | DEBITO_SAQUE

  /** Only the withdrawal status the services write is modelled. */
  datatype StatusSaque = PENDENTE

  datatype StatusAssinatura = ATIVA | ATRASADA | CANCELADA

  /** A provider's wallet row; `dataUltimoSaque` is null until the first withdrawal. */
  datatype Wallet = Wallet(id: int, prestadorId: int, saldoDisponivel: Centavos, dataUltimoSaque: Option<Data>)

  /** One ledger line: a credit for a paid booking or a debit for a withdrawal. */
  datatype TransacaoWallet = TransacaoWallet(
    id: int,
    prestadorId: int,
    tipo: TipoTransacaoWallet,
    valorBruto: Centavos,
    taxaPlataforma: Option<Centavos>,
    valorLiquido: Centavos,
    agendamentoId: Option<int>,
    pagamentoId: Option<int>,
    saqueId: Option<int>,
    criadoEm: Instante)

  datatype Saque = Saque(
    id: int,
    prestadorId: int,
    valorSolicitado: Centavos,
    valorLiquido: Centavos,
    status: StatusSaque,
    solicitadoEm: Instante)

  datatype Assinatura = Assinatura(
    id: int,
    prestadorId: int,
    status: StatusAssinatura,
    dataInicio: Data,
    dataFim: Option<Data>,
    ultimoPagamentoEm: Option<Instante>,
    billingId: Option<string>,
    valorAtual: Centavos)

  /** The wallet table, keyed by the provider it belongs to (a unique join column). */
  class WalletRepository {
    var porPrestador: map<int, Wallet>
    var proximoId: int

    ghost predicate Valid()
      reads this
    {
      forall p :: p in porPrestador ==> porPrestador[p].prestadorId == p
    }

    constructor ()
      ensures Valid() && porPrestador == map[]
    {
      porPrestador := map[];
      proximoId := 1;
    }
  }

  /** The ledger, in insertion order. */
  class TransacaoRepository {
    var linhas: seq<TransacaoWallet>
    var proximoId: int

    constructor ()
      ensures linhas == []
    {
      linhas := [];
      proximoId := 1;
    }

    /** `existsByPagamentoId`. */
    predicate ExistePagamento(pagamentoId: int)
      reads this
    {
      exists i :: 0 <= i < |linhas| && linhas[i].pagamentoId == Some(pagamentoId)
    }
  }

  class SaqueRepository {
    var linhas: seq<Saque>
    var proximoId: int

    constructor ()
      ensures linhas == []
    {
      linhas := [];
      proximoId := 1;
    }
  }

  /** The subscription table, in insertion order, with its identity counter. */
  class AssinaturaRepository {
    var linhas: seq<Assinatura>
    var proximoId: int

    /** Ids are distinct and below the counter; an ATIVA record always has an end date. */
    ghost predicate Valid()
      reads this
    {
      (forall i :: 0 <= i < |linhas| ==> linhas[i].id < proximoId && (linhas[i].status == ATIVA ==> linhas[i].dataFim.Some?))
      && (forall i, j :: 0 <= i < j < |linhas| ==> linhas[i].id != linhas[j].id)
    }

    constructor ()
      ensures Valid() && linhas == []
    {
      linhas := [];
      proximoId := 1;
    }
  }

  /** What a ledger line does to its provider's balance. */
  function Efeito(t: TransacaoWallet): Centavos
  {
    match t.tipo
    case CREDITO_AGENDAMENTO => t.valorLiquido
    case DEBITO_SAQUE => -t.valorLiquido
  }

  /** The balance the ledger implies for one provider. */
  function SaldoDoLedger(linhas: seq<TransacaoWallet>, prestadorId: int): Centavos
  {
    if linhas == [] then 0
    else SaldoDoLedger(linhas[..|linhas| - 1], prestadorId)
         + (if linhas[|linhas| - 1].prestadorId == prestadorId then Efeito(linhas[|linhas| - 1]) else 0)
  }

  /** Appending one line moves only its own provider's ledger balance, by exactly its effect. */
  lemma SaldoDoLedgerAnexar(linhas: seq<TransacaoWallet>, t: TransacaoWallet, prestadorId: int)
    ensures SaldoDoLedger(linhas + [t], prestadorId)
         == SaldoDoLedger(linhas, prestadorId) + (if t.prestadorId == prestadorId then Efeito(t) else 0)
  {
    assert (linhas + [t])[..|linhas|] == linhas;
  }

  /** A provider no ledger line mentions has a ledger balance of zero. */
  lemma {:induction false} SaldoDoLedgerSemLinhas(linhas: seq<TransacaoWallet>, prestadorId: int)
    requires forall i :: 0 <= i < |linhas| ==> linhas[i].prestadorId != prestadorId
    ensures SaldoDoLedger(linhas, prestadorId) == 0
  {
    if linhas != [] {
      SaldoDoLedgerSemLinhas(linhas[..|linhas| - 1], prestadorId);
    }
  }

  /**
   * Wallets and ledger agree: every wallet's balance is what its provider's
   * ledger lines add up to, and no line belongs to a provider without a wallet.
   */
  ghost predicate Conciliado(wallets: map<int, Wallet>, linhas: seq<TransacaoWallet>)
  {
    (forall p :: p in wallets ==> wallets[p].prestadorId == p && wallets[p].saldoDisponivel == SaldoDoLedger(linhas, p))
    && (forall i :: 0 <= i < |linhas| ==> linhas[i].prestadorId in wallets)
  }

  /** Creating a zero-balance wallet for a provider with none keeps the two in agreement. */
  lemma ConciliadoNovaWallet(wallets: map<int, Wallet>, linhas: seq<TransacaoWallet>, w: Wallet)
    requires Conciliado(wallets, linhas) && w.prestadorId !in wallets && w.saldoDisponivel == 0
    ensures Conciliado(wallets[w.prestadorId := w], linhas)
  {
    SaldoDoLedgerSemLinhas(linhas, w.prestadorId);
  }

  /** Appending a line and moving its provider's balance by its effect keeps the two in agreement. */
  lemma ConciliadoLancamento(wallets: map<int, Wallet>, linhas: seq<TransacaoWallet>, t: TransacaoWallet, w: Wallet)
    requires Conciliado(wallets, linhas) && t.prestadorId in wallets
    requires w.prestadorId == t.prestadorId && w.saldoDisponivel == wallets[t.prestadorId].saldoDisponivel + Efeito(t)
    ensures Conciliado(wallets[t.prestadorId := w], linhas + [t])
  {
    forall p | p in wallets[t.prestadorId := w]
      ensures wallets[t.prestadorId := w][p].saldoDisponivel == SaldoDoLedger(linhas + [t], p)
    {
      SaldoDoLedgerAnexar(linhas, t, p);
    }
  }

  /** The existing wallet of a provider, or the zero-balance one about to be created. */
  function WalletOuNova(wallets: map<int, Wallet>, prestadorId: int, proximoId: int): (w: Wallet)
    ensures prestadorId in wallets ==> w == wallets[prestadorId]
    ensures prestadorId !in wallets ==> w == Wallet(proximoId, prestadorId, 0, None)
  {
    if prestadorId in wallets then wallets[prestadorId] else Wallet(proximoId, prestadorId, 0, None)
  }
}
