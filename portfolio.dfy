/**
 * A provider's portfolio: pictures with a title, listed newest first,
 * added under the provider's own storage folder and removed only by their owner.
 */
module Portfolio {
  import opened Wrappers
  import opened Tempo
  import opened Numeros
  import opened Texto
  import opened Dominio
  import PrestadorServico

  const ITEM_NAO_ENCONTRADO: string := "Item de portfólio não encontrado."

  datatype PortfolioItem = PortfolioItem(
    id: int,
    prestadorId: int,
    titulo: string,
    descricao: Option<string>,
    imagemUrl: string,
    criadoEm: Instante)

  /** The ids along `s` strictly decrease. */
  predicate IdsDecrescentes(s: seq<PortfolioItem>)
  {
    forall i, j :: 0 <= i < j < |s| ==> s[i].id > s[j].id
  }

  /** The ids along `s` strictly increase, as identity values are handed out. */
  predicate IdsCrescentes(s: seq<PortfolioItem>)
  {
    forall i, j :: 0 <= i < j < |s| ==> s[i].id < s[j].id
  }

  /** The provider's items of `s`, last first. */
  function DoPrestadorInvertido(s: seq<PortfolioItem>, prestadorId: int): (r: seq<PortfolioItem>)
    requires IdsCrescentes(s)
    ensures forall x :: x in r <==> x in s && x.prestadorId == prestadorId
    ensures IdsDecrescentes(r)
    ensures forall x :: x in r && s != [] ==> x.id <= s[|s| - 1].id
  {
    if s == [] then []
    else
      var ultimo := s[|s| - 1];
      var resto := DoPrestadorInvertido(s[..|s| - 1], prestadorId);
      assert forall x :: x in s <==> x in s[..|s| - 1] || x == ultimo;
      assert forall x :: x in resto ==> x.id < ultimo.id;
      if ultimo.prestadorId == prestadorId then [ultimo] + resto else resto
  }

  /** `s` without the row whose id is `id`, in the same order. */
  function SemItem(s: seq<PortfolioItem>, id: int): (r: seq<PortfolioItem>)
    ensures forall x :: x in r <==> x in s && x.id != id
    ensures |r| <= |s|
  {
    if s == [] then []
    else if s[0].id == id then SemItem(s[1..], id)
    else [s[0]] + SemItem(s[1..], id)
  }

  /** With unique ids, removing a present id takes away exactly one row. */
  lemma {:induction false} SemItemRemoveUm(s: seq<PortfolioItem>, id: int)
    requires IdsCrescentes(s)
    requires exists x :: x in s && x.id == id
    ensures |SemItem(s, id)| == |s| - 1
  {
    if s[0].id == id {
      assert forall x :: x in s[1..] ==> x.id > id;
      SemItemSemOcorrencia(s[1..], id);
    } else {
      assert exists x :: x in s[1..] && x.id == id;
      SemItemRemoveUm(s[1..], id);
    }
  }

  /** Removing an id that no row has changes nothing. */
  lemma {:induction false} SemItemSemOcorrencia(s: seq<PortfolioItem>, id: int)
    requires forall x :: x in s ==> x.id != id
    ensures SemItem(s, id) == s
  {
    if s != [] {
      SemItemSemOcorrencia(s[1..], id);
    }
  }

  /** The storage folder of a provider's portfolio pictures. */
  function Pasta(prestadorId: int): string
  {
    "prestador-" + LongToString(prestadorId) + "/portfolio"
  }

  /** Two providers never share a portfolio folder. */
  lemma PastaInjetiva(a: int, b: int)
    requires InLongRange(a) && InLongRange(b)
    requires Pasta(a) == Pasta(b)
    ensures a == b
  {
    var pa := "prestador-" + LongToString(a);
    var pb := "prestador-" + LongToString(b);
    assert |Pasta(a)| == |pa| + 10 && |Pasta(b)| == |pb| + 10;
    assert pa == Pasta(a)[..|pa|];
    assert pb == Pasta(b)[..|pb|];
    ParseSuffix("prestador-", a);
    ParseSuffix("prestador-", b);
  }

  /** The portfolio table. */
  class PortfolioRepository {
    var linhas: seq<PortfolioItem>
    var proximoId: int

    /** Rows are kept in insertion order, so their identity values increase. */
    ghost predicate Valid()
      reads this
    {
      IdsCrescentes(linhas) && forall x :: x in linhas ==> x.id < proximoId
    }

    constructor ()
      ensures Valid() && linhas == []
    {
      linhas := [];
      proximoId := 1;
    }

    /** `findByPrestadorIdOrderByIdDesc`. */
    function PorPrestadorOrdemDesc(prestadorId: int): (r: seq<PortfolioItem>)
      requires Valid()
      reads this
      ensures forall x :: x in r <==> x in linhas && x.prestadorId == prestadorId
      ensures IdsDecrescentes(r)
    {
      DoPrestadorInvertido(linhas, prestadorId)
    }

    /** `findByIdAndPrestadorId`. */
    function PorIdEPrestador(id: int, prestadorId: int): (r: Option<PortfolioItem>)
      reads this
      ensures r.Some? ==> r.value in linhas && r.value.id == id && r.value.prestadorId == prestadorId
      ensures r.None? ==> forall x :: x in linhas ==> !(x.id == id && x.prestadorId == prestadorId)
    {
      match IndiceDe(linhas, (x: PortfolioItem) => x.id == id && x.prestadorId == prestadorId)
      case None => None
      case Some(i) => Some(linhas[i])
    }
  }

  class PortfolioService {
    const prestadores: PrestadorRepository
    const portfolio: PortfolioRepository

    constructor (prestadores: PrestadorRepository, portfolio: PortfolioRepository)
      ensures this.prestadores == prestadores && this.portfolio == portfolio
    {
      this.prestadores := prestadores;
      this.portfolio := portfolio;
    }

    /** `listarPorPrestador`: the provider's items, newest (highest id) first. */
    function ListarPorPrestador(prestadorId: int): (r: seq<PortfolioItem>)
      requires portfolio.Valid()
      reads this, portfolio
      ensures forall x :: x in r <==> x in portfolio.linhas && x.prestadorId == prestadorId
      ensures IdsDecrescentes(r)
    {
      portfolio.PorPrestadorOrdemDesc(prestadorId)
    }

    /**
     * `adicionar`: the caller must be a provider; the picture is stored under
     * the provider's folder (`armazenar` is what the media storage answers
     * for a folder: the stored path, or the failure it raises) and one row
     * keeping that path is added.
     */
    method Adicionar(prestadorKeycloakId: string, titulo: string, descricao: Option<string>,
                     armazenar: string -> Result<string>, agora: Instante) returns (r: Result<PortfolioItem>)
      requires portfolio.Valid()
      modifies portfolio
      ensures portfolio.Valid()
      ensures PrestadorPorKeycloak(prestadores.prestadores, prestadorKeycloakId).None? ==>
        r == Failure(PrestadorServico.PRESTADOR_NAO_ENCONTRADO)
      ensures r.Failure? ==> portfolio.linhas == old(portfolio.linhas) && portfolio.proximoId == old(portfolio.proximoId)
      ensures r.Success? <==>
        PrestadorPorKeycloak(prestadores.prestadores, prestadorKeycloakId).Some?
        && armazenar(Pasta(PrestadorPorKeycloak(prestadores.prestadores, prestadorKeycloakId).value.id)).Success?
      ensures r.Success? ==>
        var p := PrestadorPorKeycloak(prestadores.prestadores, prestadorKeycloakId).value;
        r.value == PortfolioItem(old(portfolio.proximoId), p.id, titulo, descricao, armazenar(Pasta(p.id)).value, agora)
        && portfolio.linhas == old(portfolio.linhas) + [r.value]
        && portfolio.proximoId == old(portfolio.proximoId) + 1
    {
      var prestador := PrestadorPorKeycloak(prestadores.prestadores, prestadorKeycloakId);
      if prestador.None? {
        return Failure(PrestadorServico.PRESTADOR_NAO_ENCONTRADO);
      }
      var caminho := armazenar(Pasta(prestador.value.id));
      if caminho.Failure? {
        return Failure(caminho.error);
      }
      var item := PortfolioItem(portfolio.proximoId, prestador.value.id, titulo, descricao, caminho.value, agora);
      portfolio.linhas := portfolio.linhas + [item];
      portfolio.proximoId := portfolio.proximoId + 1;
      return Success(item);
    }

    /** `remover`: only the caller's own item is deleted, and nothing else. */
    method Remover(prestadorKeycloakId: string, itemId: int) returns (r: Result<()>)
      requires portfolio.Valid()
      modifies portfolio
      ensures portfolio.Valid() && portfolio.proximoId == old(portfolio.proximoId)
      ensures PrestadorPorKeycloak(prestadores.prestadores, prestadorKeycloakId).None? ==>
        r == Failure(PrestadorServico.PRESTADOR_NAO_ENCONTRADO)
      ensures r.Success? <==>
        PrestadorPorKeycloak(prestadores.prestadores, prestadorKeycloakId).Some?
        && exists x :: x in old(portfolio.linhas) && x.id == itemId
             && x.prestadorId == PrestadorPorKeycloak(prestadores.prestadores, prestadorKeycloakId).value.id
      ensures r.Failure? ==> portfolio.linhas == old(portfolio.linhas)
      ensures PrestadorPorKeycloak(prestadores.prestadores, prestadorKeycloakId).Some? && r.Failure? ==>
        r.error == ITEM_NAO_ENCONTRADO
      ensures r.Success? ==> (portfolio.linhas == SemItem(old(portfolio.linhas), itemId)
        && |portfolio.linhas| == |old(portfolio.linhas)| - 1)
    {
      var prestador := PrestadorPorKeycloak(prestadores.prestadores, prestadorKeycloakId);
      if prestador.None? {
        return Failure(PrestadorServico.PRESTADOR_NAO_ENCONTRADO);
      }
      var item := portfolio.PorIdEPrestador(itemId, prestador.value.id);
      if item.None? {
        return Failure(ITEM_NAO_ENCONTRADO);
      }
      SemItemRemoveUm(portfolio.linhas, itemId);
      SemItemPreservaOrdem(portfolio.linhas, itemId);
      portfolio.linhas := SemItem(portfolio.linhas, itemId);
      return Success(());
    }
  }

  /** A row placed before increasing rows whose ids all exceed its own keeps them increasing. */
  lemma PrefixoMenor(x: PortfolioItem, resto: seq<PortfolioItem>)
    requires IdsCrescentes(resto)
    requires forall y :: y in resto ==> y.id > x.id
    ensures IdsCrescentes([x] + resto)
  {
    var s := [x] + resto;
    forall i, j | 0 <= i < j < |s|
      ensures s[i].id < s[j].id
    {
      assert s[j] == resto[j - 1];
      if i > 0 {
        assert s[i] == resto[i - 1];
      }
    }
  }

  /** Removing rows keeps the remaining ones in increasing id order. */
  lemma {:induction false} SemItemPreservaOrdem(s: seq<PortfolioItem>, id: int)
    requires IdsCrescentes(s)
    ensures IdsCrescentes(SemItem(s, id))
  {
    if s != [] {
      var cauda := s[1..];
      assert IdsCrescentes(cauda) by {
        assert forall i :: 0 <= i < |cauda| ==> cauda[i] == s[i + 1];
      }
      SemItemPreservaOrdem(cauda, id);
      var resto := SemItem(cauda, id);
      assert forall x :: x in cauda ==> x.id > s[0].id;
      if s[0].id != id {
        PrefixoMenor(s[0], resto);
      }
    }
  }
}
