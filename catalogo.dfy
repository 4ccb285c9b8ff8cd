/**
 * The public provider catalogue: the active providers that pass the
 * caller's filters, summarised with their rating and distance, ordered by
 * the chosen criterion and cut into a page.
 *
 * Average ratings and distances are doubles in the service; here they are
 * reals, and the great-circle distance is a parameter (`haversine`).
 */
module Catalogo {
  import opened Wrappers
  import opened Texto
  import opened Numeros
  import opened Dominio
  import Portfolio

  const PRESTADOR_NAO_ENCONTRADO: string := "Prestador não encontrado."

  /** What the review and booking tables report about one provider. */
  datatype Metricas = Metricas(media: Option<real>, totalAvaliacoes: int, totalServicos: int)

  /** The great-circle distance in km between two (latitude, longitude) points. */
  type Haversine = (Coordenada, Coordenada, Coordenada, Coordenada) -> real

  datatype PrestadorPublicoResumo = PrestadorPublicoResumo(
    id: int,
    nomeFantasia: Option<string>,
    categoria: Option<CategoriaAtuacao>,
    cidade: Option<string>,
    uf: Option<string>,
    valorServico: Option<Centavos>,
    mediaAvaliacao: real,
    totalAvaliacoes: int,
    distanciaKm: Option<real>,
    totalServicos: int,
    avatarUrl: Option<string>)

  datatype PortfolioPublicoItem = PortfolioPublicoItem(id: int, titulo: string, descricao: Option<string>, imagemUrl: string)

  datatype PrestadorPublicoDetalhe = PrestadorPublicoDetalhe(
    id: int,
    nomeFantasia: Option<string>,
    categoria: Option<CategoriaAtuacao>,
    cidade: Option<string>,
    uf: Option<string>,
    valorServico: Option<Centavos>,
    mediaAvaliacao: real,
    avatarUrl: Option<string>,
    portfolio: seq<PortfolioPublicoItem>,
    keycloakId: string)

  /**
   * `calcularDistanciaKm`: no distance unless the caller sent both
   * coordinates and the provider's address has both.
   */
  function Distancia(latitude: Option<Coordenada>, longitude: Option<Coordenada>, p: Prestador, haversine: Haversine)
    : (r: Option<real>)
    ensures r.Some? <==> latitude.Some? && longitude.Some? && p.endereco.Some?
                         && p.endereco.value.latitude.Some? && p.endereco.value.longitude.Some?
    ensures r.Some? ==> r.value == haversine(latitude.value, longitude.value,
                                             p.endereco.value.latitude.value, p.endereco.value.longitude.value)
  {
    if latitude.None? || longitude.None? || p.endereco.None? then None
    else if p.endereco.value.latitude.None? || p.endereco.value.longitude.None? then None
    else Some(haversine(latitude.value, longitude.value, p.endereco.value.latitude.value, p.endereco.value.longitude.value))
  }

  /** `toResumo`: a missing average counts as 0. */
  function ResumoDe(p: Prestador, latitude: Option<Coordenada>, longitude: Option<Coordenada>,
                    metricas: int -> Metricas, haversine: Haversine): (r: PrestadorPublicoResumo)
    ensures r.id == p.id && r.nomeFantasia == p.nomeFantasia && r.categoria == p.categoria
    ensures r.valorServico == p.valorServico && r.avatarUrl == p.avatarUrl
    ensures r.cidade == (if p.endereco.Some? then p.endereco.value.cidade else None)
    ensures r.uf == (if p.endereco.Some? then p.endereco.value.uf else None)
    ensures r.mediaAvaliacao == metricas(p.id).media.GetOr(0.0)
    ensures r.totalAvaliacoes == metricas(p.id).totalAvaliacoes && r.totalServicos == metricas(p.id).totalServicos
    ensures r.distanciaKm == Distancia(latitude, longitude, p, haversine)
  {
    var m := metricas(p.id);
    PrestadorPublicoResumo(
      p.id, p.nomeFantasia, p.categoria,
      if p.endereco.Some? then p.endereco.value.cidade else None,
      if p.endereco.Some? then p.endereco.value.uf else None,
      p.valorServico, if m.media.Some? then m.media.value else 0.0, m.totalAvaliacoes,
      Distancia(latitude, longitude, p, haversine), m.totalServicos, p.avatarUrl)
  }

  // ----- filters -----

  /** `ativo == null || ativo`: a provider that never set the flag is listed. */
  predicate Ativo(p: Prestador)
  {
    p.ativo != Some(false)
  }

  predicate DaCategoria(p: Prestador, categoria: Option<CategoriaAtuacao>)
  {
    categoria.None? || p.categoria == categoria
  }

  /** `cidade.equalsIgnoreCase(endereco.getCidade())`: a provider without an address or city never matches. */
  predicate DaCidade(p: Prestador, cidade: Option<string>)
  {
    cidade.None? || (p.endereco.Some? && p.endereco.value.cidade.Some? && EqualsIgnoreCase(cidade.value, p.endereco.value.cidade.value))
  }

  predicate DaUf(p: Prestador, uf: Option<string>)
  {
    uf.None? || (p.endereco.Some? && p.endereco.value.uf.Some? && EqualsIgnoreCase(uf.value, p.endereco.value.uf.value))
  }

  predicate AvaliacaoMinima(r: PrestadorPublicoResumo, minAvaliacao: Option<real>)
  {
    minAvaliacao.None? || r.mediaAvaliacao >= minAvaliacao.value
  }

  /** A null or blank search matches every provider; otherwise it is a case-insensitive part of the trade name. */
  predicate CasaBusca(p: Prestador, busca: Option<string>)
  {
    busca.None? || IsBlank(busca.value)
    || (p.nomeFantasia.Some? && Contains(ToLower(p.nomeFantasia.value), ToLower(busca.value)))
  }

  // ----- ordering -----

  /** The comparators `comparatorForOrderBy` can pick. */
  datatype Criterio = PorDistancia | PorAvaliacao | PorValorServico | PorTotalServicos

  /**
   * `comparatorForOrderBy`: null or blank gives distance; otherwise the
   * lower-cased label picks rating, price or experience, and any other label
   * falls back to distance.
   */
  function CriterioDe(orderBy: Option<string>): (r: Criterio)
    ensures orderBy.None? || IsBlank(orderBy.value) ==> r == PorDistancia
    ensures r == PorAvaliacao <==> orderBy.Some? && !IsBlank(orderBy.value) && ToLower(orderBy.value) == "avaliacao"
    ensures r == PorValorServico <==> (orderBy.Some? && !IsBlank(orderBy.value)
      && (ToLower(orderBy.value) == "valorHora" || ToLower(orderBy.value) == "valorservico"))
    ensures r == PorTotalServicos <==> (orderBy.Some? && !IsBlank(orderBy.value)
      && (ToLower(orderBy.value) == "experiencia" || ToLower(orderBy.value) == "popularidade"))
  {
    if orderBy.None? || IsBlank(orderBy.value) then PorDistancia
    else
      var o := ToLower(orderBy.value);
      if o == "avaliacao" then PorAvaliacao
      else if o == "valorHora" || o == "valorservico" then PorValorServico
      else if o == "experiencia" || o == "popularidade" then PorTotalServicos
      else PorDistancia
  }

  /** A lower-cased string holds no upper-case letter. */
  lemma SemMaiusculas(s: string)
    ensures forall i :: 0 <= i < |s| ==> !IsUpperLetter(ToLower(s)[i])
  {
  }

  /** No lower-cased label contains an upper-case letter, so the "valorHora" case label is dead. */
  lemma ValorHoraNuncaCasa(orderBy: string)
    ensures ToLower(orderBy) != "valorHora"
  {
    SemMaiusculas(orderBy);
    assert IsUpperLetter("valorHora"[5]);
  }

  /** Asking for "valorHora", as the web client does, sorts by distance. */
  lemma ValorHoraOrdenaPorDistancia()
    ensures CriterioDe(Some("valorHora")) == PorDistancia
  {
    var v := "valorHora";
    var o := ToLower(v);
    assert !IsWhitespace(v[0]);
    assert o[0] == 'v' && o[5] == 'h' && |o| == 9;
    assert o != "avaliacao" by {
      assert "avaliacao"[0] == 'a';
    }
    assert o != "valorHora" by {
      assert "valorHora"[5] == 'H';
    }
    OutroCriterio(v);
  }

  /** A label that is none of the known ones sorts by distance. */
  lemma OutroCriterio(v: string)
    requires !IsBlank(v)
    requires ToLower(v) != "avaliacao" && ToLower(v) != "valorHora"
    requires |v| != |"valorservico"| && |v| != |"experiencia"| && |v| != |"popularidade"|
    ensures CriterioDe(Some(v)) == PorDistancia
  {
  }

  /** `Comparator.nullsLast(naturalOrder())` on distances: `a` may come before `b`. */
  predicate DistanciaAntes(a: Option<real>, b: Option<real>)
  {
    if a.None? then b.None? else b.None? || a.value <= b.value
  }

  /** `Comparator.nullsLast(naturalOrder())` on prices: `a` may come before `b`. */
  predicate ValorAntes(a: Option<Centavos>, b: Option<Centavos>)
  {
    if a.None? then b.None? else b.None? || a.value <= b.value
  }

  /** `a` may come before `b` under the criterion (a total preorder). */
  predicate Antes(c: Criterio, a: PrestadorPublicoResumo, b: PrestadorPublicoResumo)
  {
    match c
    case PorDistancia => DistanciaAntes(a.distanciaKm, b.distanciaKm)
    case PorAvaliacao => a.mediaAvaliacao >= b.mediaAvaliacao
    case PorValorServico => ValorAntes(a.valorServico, b.valorServico)
    case PorTotalServicos => a.totalServicos >= b.totalServicos
  }

  lemma AntesTotal(c: Criterio, a: PrestadorPublicoResumo, b: PrestadorPublicoResumo)
    ensures Antes(c, a, b) || Antes(c, b, a)
  {
  }

  lemma AntesTransitivo(c: Criterio, a: PrestadorPublicoResumo, b: PrestadorPublicoResumo, d: PrestadorPublicoResumo)
    requires Antes(c, a, b) && Antes(c, b, d)
    ensures Antes(c, a, d)
  {
  }

  predicate Ordenado(c: Criterio, s: seq<PrestadorPublicoResumo>)
  {
    forall i, j :: 0 <= i < j < |s| ==> Antes(c, s[i], s[j])
  }

  /** Puts `x` before the first element it may precede: ahead of its equals, as a stable sort keeps an earlier element. */
  function Inserir(c: Criterio, x: PrestadorPublicoResumo, s: seq<PrestadorPublicoResumo>): (r: seq<PrestadorPublicoResumo>)
    ensures multiset(r) == multiset(s) + multiset{x}
  {
    if s == [] || Antes(c, x, s[0]) then [x] + s
    else
      assert s == [s[0]] + s[1..];
      [s[0]] + Inserir(c, x, s[1..])
  }

  lemma {:induction false} InserirOrdenado(c: Criterio, x: PrestadorPublicoResumo, s: seq<PrestadorPublicoResumo>)
    requires Ordenado(c, s)
    ensures Ordenado(c, Inserir(c, x, s))
  {
    if s == [] || Antes(c, x, s[0]) {
      forall j | 0 <= j < |s| ensures Antes(c, x, s[j]) {
        if j > 0 { AntesTransitivo(c, x, s[0], s[j]); }
      }
    } else {
      AntesTotal(c, x, s[0]);
      InserirOrdenado(c, x, s[1..]);
      var resto := Inserir(c, x, s[1..]);
      forall y | y in resto ensures Antes(c, s[0], y) {
        assert y in multiset(resto);
        if y != x {
          assert y in multiset(s[1..]);
        }
      }
    }
  }

  /** `sorted(comparator)`, the stable sort of the stream. */
  function Ordenar(c: Criterio, s: seq<PrestadorPublicoResumo>): (r: seq<PrestadorPublicoResumo>)
    ensures Ordenado(c, r)
    ensures multiset(r) == multiset(s)
  {
    if s == [] then []
    else
      assert s == [s[0]] + s[1..];
      InserirOrdenado(c, s[0], Ordenar(c, s[1..]));
      Inserir(c, s[0], Ordenar(c, s[1..]))
  }

  /** Sorting neither adds nor drops an element. */
  lemma OrdenarMembros(c: Criterio, s: seq<PrestadorPublicoResumo>)
    ensures forall x :: x in Ordenar(c, s) <==> x in s
  {
    var r := Ordenar(c, s);
    forall x ensures x in r <==> x in s {
      assert x in r <==> x in multiset(r);
      assert x in s <==> x in multiset(s);
    }
  }

  /** `a` and `b` compare equal under the criterion. */
  predicate Empatados(c: Criterio, a: PrestadorPublicoResumo, b: PrestadorPublicoResumo)
  {
    Antes(c, a, b) && Antes(c, b, a)
  }

  /** The elements of `s` that compare equal to `y`, in their order in `s`. */
  function EmpatadosCom(c: Criterio, y: PrestadorPublicoResumo, s: seq<PrestadorPublicoResumo>): seq<PrestadorPublicoResumo>
  {
    if s == [] then [] else (if Empatados(c, s[0], y) then [s[0]] else []) + EmpatadosCom(c, y, s[1..])
  }

  /** The elements picked out are exactly those of `s` that compare equal to `y`. */
  lemma {:induction false} MembrosEmpatados(c: Criterio, y: PrestadorPublicoResumo, s: seq<PrestadorPublicoResumo>)
    ensures forall x :: x in EmpatadosCom(c, y, s) <==> x in s && Empatados(c, x, y)
  {
    if s != [] {
      MembrosEmpatados(c, y, s[1..]);
      assert s == [s[0]] + s[1..];
    }
  }

  /** Inserting `x` puts it ahead of the elements equal to it and keeps their order. */
  lemma {:induction false} InserirEstavel(c: Criterio, x: PrestadorPublicoResumo, s: seq<PrestadorPublicoResumo>, y: PrestadorPublicoResumo)
    ensures EmpatadosCom(c, y, Inserir(c, x, s)) == (if Empatados(c, x, y) then [x] else []) + EmpatadosCom(c, y, s)
  {
    if s == [] || Antes(c, x, s[0]) {
      assert Inserir(c, x, s) == [x] + s;
      EmpatadosComCabeca(c, y, x, s);
    } else {
      assert Inserir(c, x, s) == [s[0]] + Inserir(c, x, s[1..]);
      InserirEstavel(c, x, s[1..], y);
      EmpateTransitivo(c, x, s[0], y);
      PassoEstavel(c, y, x, s[0], Inserir(c, x, s[1..]), s[1..]);
      assert [s[0]] + s[1..] == s;
    }
  }

  /** Putting `a` ahead of both lists keeps `x` ahead of the equal elements when `a` and `x` are not both equal to `y`. */
  lemma {:induction false} PassoEstavel(c: Criterio, y: PrestadorPublicoResumo, x: PrestadorPublicoResumo, a: PrestadorPublicoResumo,
                                        resto: seq<PrestadorPublicoResumo>, t: seq<PrestadorPublicoResumo>)
    requires EmpatadosCom(c, y, resto) == (if Empatados(c, x, y) then [x] else []) + EmpatadosCom(c, y, t)
    requires !(Empatados(c, x, y) && Empatados(c, a, y))
    ensures EmpatadosCom(c, y, [a] + resto) == (if Empatados(c, x, y) then [x] else []) + EmpatadosCom(c, y, [a] + t)
  {
    EmpatadosComCabeca(c, y, a, resto);
    EmpatadosComCabeca(c, y, a, t);
  }

  /** The elements equal to `y` in `[a] + t`: `a` if it is one, then those of `t`. */
  lemma {:induction false} EmpatadosComCabeca(c: Criterio, y: PrestadorPublicoResumo, a: PrestadorPublicoResumo, t: seq<PrestadorPublicoResumo>)
    ensures EmpatadosCom(c, y, [a] + t) == (if Empatados(c, a, y) then [a] else []) + EmpatadosCom(c, y, t)
  {
    assert ([a] + t)[0] == a && ([a] + t)[1..] == t;
  }

  /** Two elements equal to the same `y` may precede each other. */
  lemma {:induction false} EmpateTransitivo(c: Criterio, a: PrestadorPublicoResumo, b: PrestadorPublicoResumo, y: PrestadorPublicoResumo)
    ensures Empatados(c, a, y) && Empatados(c, b, y) ==> Antes(c, a, b)
  {
    if Empatados(c, a, y) && Empatados(c, b, y) {
      AntesTransitivo(c, a, y, b);
    }
  }

  /** The sort is stable: the elements equal to any `y` come out in their input order. */
  lemma {:induction false} OrdenarEstavel(c: Criterio, s: seq<PrestadorPublicoResumo>, y: PrestadorPublicoResumo)
    ensures EmpatadosCom(c, y, Ordenar(c, s)) == EmpatadosCom(c, y, s)
  {
    if s != [] {
      OrdenarEstavel(c, s[1..], y);
      InserirEstavel(c, s[0], Ordenar(c, s[1..]), y);
    }
  }

  /** When all elements compare equal, sorting keeps the input order. */
  lemma {:induction false} TodosEmpatados(c: Criterio, s: seq<PrestadorPublicoResumo>)
    requires forall i, j :: 0 <= i < j < |s| ==> Empatados(c, s[i], s[j])
    ensures Ordenar(c, s) == s
  {
    if s != [] {
      var t := s[1..];
      forall i, j | 0 <= i < j < |t| ensures Empatados(c, t[i], t[j]) {
        assert t[i] == s[i + 1] && t[j] == s[j + 1];
      }
      TodosEmpatados(c, t);
      if t != [] {
        assert Empatados(c, s[0], s[1]) && t[0] == s[1];
      }
      assert Inserir(c, s[0], t) == [s[0]] + t;
      assert s == [s[0]] + t;
    }
  }

  // ----- the listings -----

  /** The address and activity filters of the unpaginated list, applied to the provider row. */
  predicate PassaFiltros(p: Prestador, categoria: Option<CategoriaAtuacao>, cidade: Option<string>, uf: Option<string>)
  {
    Ativo(p) && DaCategoria(p, categoria) && DaCidade(p, cidade) && DaUf(p, uf)
  }

  /** The row filters of the paginated list: activity, category and the trade-name search. */
  predicate PassaFiltrosDaBusca(p: Prestador, busca: Option<string>, categoria: Option<CategoriaAtuacao>)
  {
    Ativo(p) && DaCategoria(p, categoria) && CasaBusca(p, busca)
  }

  /** The rows of `listarPrestadores` that pass its filters, in table order. */
  function Selecionar(ps: seq<Prestador>, categoria: Option<CategoriaAtuacao>, cidade: Option<string>, uf: Option<string>)
    : (r: seq<Prestador>)
    ensures forall p :: p in r <==> p in ps && PassaFiltros(p, categoria, cidade, uf)
    ensures |r| <= |ps|
  {
    if ps == [] then []
    else (if PassaFiltros(ps[0], categoria, cidade, uf) then [ps[0]] else []) + Selecionar(ps[1..], categoria, cidade, uf)
  }

  /** The rows of `listarPrestadoresPaginated` that pass its filters, in table order. */
  function SelecionarDaBusca(ps: seq<Prestador>, busca: Option<string>, categoria: Option<CategoriaAtuacao>)
    : (r: seq<Prestador>)
    ensures forall p :: p in r <==> p in ps && PassaFiltrosDaBusca(p, busca, categoria)
    ensures |r| <= |ps|
  {
    if ps == [] then []
    else (if PassaFiltrosDaBusca(ps[0], busca, categoria) then [ps[0]] else []) + SelecionarDaBusca(ps[1..], busca, categoria)
  }

  /** `map(p -> toResumo(p, latitude, longitude))`. */
  function Resumir(ps: seq<Prestador>, latitude: Option<Coordenada>, longitude: Option<Coordenada>,
                   metricas: int -> Metricas, haversine: Haversine): (r: seq<PrestadorPublicoResumo>)
    ensures |r| == |ps|
    ensures forall i :: 0 <= i < |ps| ==> r[i] == ResumoDe(ps[i], latitude, longitude, metricas, haversine)
  {
    if ps == [] then [] else [ResumoDe(ps[0], latitude, longitude, metricas, haversine)] + Resumir(ps[1..], latitude, longitude, metricas, haversine)
  }

  /** The summaries are the summaries of the rows. */
  lemma MembrosDeResumir(ps: seq<Prestador>, latitude: Option<Coordenada>, longitude: Option<Coordenada>,
                         metricas: int -> Metricas, haversine: Haversine)
    ensures forall x :: x in Resumir(ps, latitude, longitude, metricas, haversine) <==>
      exists p :: p in ps && x == ResumoDe(p, latitude, longitude, metricas, haversine)
  {
    var r := Resumir(ps, latitude, longitude, metricas, haversine);
    forall x ensures x in r <==> exists p :: p in ps && x == ResumoDe(p, latitude, longitude, metricas, haversine) {
      if x in r {
        var i :| 0 <= i < |r| && r[i] == x;
        assert ps[i] in ps;
      }
      if exists p :: p in ps && x == ResumoDe(p, latitude, longitude, metricas, haversine) {
        var p :| p in ps && x == ResumoDe(p, latitude, longitude, metricas, haversine);
        var i :| 0 <= i < |ps| && ps[i] == p;
        assert r[i] == x;
      }
    }
  }

  /** `filter(r -> minAvaliacao == null || r.mediaAvaliacao() >= minAvaliacao)`. */
  function AcimaDoMinimo(rs: seq<PrestadorPublicoResumo>, minAvaliacao: Option<real>): (r: seq<PrestadorPublicoResumo>)
    ensures forall x :: x in r <==> x in rs && AvaliacaoMinima(x, minAvaliacao)
    ensures |r| <= |rs|
  {
    if rs == [] then []
    else (if AvaliacaoMinima(rs[0], minAvaliacao) then [rs[0]] else []) + AcimaDoMinimo(rs[1..], minAvaliacao)
  }

  /**
   * `listarPrestadores`: the summaries of the providers that pass every
   * filter, closest first, providers without a distance last.
   */
  function ListarPrestadores(prestadores: seq<Prestador>, categoria: Option<CategoriaAtuacao>, cidade: Option<string>,
                             uf: Option<string>, minAvaliacao: Option<real>, latitude: Option<Coordenada>,
                             longitude: Option<Coordenada>, metricas: int -> Metricas, haversine: Haversine)
    : (r: seq<PrestadorPublicoResumo>)
  {
    var resumos := Resumir(Selecionar(prestadores, categoria, cidade, uf), latitude, longitude, metricas, haversine);
    Ordenar(PorDistancia, AcimaDoMinimo(resumos, minAvaliacao))
  }

  /**
   * What the unpaginated list holds: it is ordered by distance, and a
   * summary is in it exactly when it is the summary of a provider that
   * passes the filters and has at least the minimum rating.
   */
  lemma ListarPrestadoresCaracterizado(prestadores: seq<Prestador>, categoria: Option<CategoriaAtuacao>, cidade: Option<string>,
                                       uf: Option<string>, minAvaliacao: Option<real>, latitude: Option<Coordenada>,
                                       longitude: Option<Coordenada>, metricas: int -> Metricas, haversine: Haversine)
    ensures var r := ListarPrestadores(prestadores, categoria, cidade, uf, minAvaliacao, latitude, longitude, metricas, haversine);
      Ordenado(PorDistancia, r)
      && forall x :: x in r <==>
           (exists p :: p in prestadores && PassaFiltros(p, categoria, cidade, uf)
              && x == ResumoDe(p, latitude, longitude, metricas, haversine)) && AvaliacaoMinima(x, minAvaliacao)
  {
    var selecionados := Selecionar(prestadores, categoria, cidade, uf);
    var resumos := Resumir(selecionados, latitude, longitude, metricas, haversine);
    MembrosDeResumir(selecionados, latitude, longitude, metricas, haversine);
    OrdenarMembros(PorDistancia, AcimaDoMinimo(resumos, minAvaliacao));
  }

  /** `listarPrestadoresPaginated` before the cut: filtered, summarised and ordered by `orderBy`. */
  function ListaOrdenada(prestadores: seq<Prestador>, busca: Option<string>, categoria: Option<CategoriaAtuacao>,
                         minAvaliacao: Option<real>, orderBy: Option<string>, latitude: Option<Coordenada>,
                         longitude: Option<Coordenada>, metricas: int -> Metricas, haversine: Haversine)
    : (r: seq<PrestadorPublicoResumo>)
  {
    var resumos := Resumir(SelecionarDaBusca(prestadores, busca, categoria), latitude, longitude, metricas, haversine);
    Ordenar(CriterioDe(orderBy), AcimaDoMinimo(resumos, minAvaliacao))
  }

  /** The list the page is cut from is ordered by the chosen criterion and holds exactly the matching summaries. */
  lemma ListaOrdenadaCaracterizada(prestadores: seq<Prestador>, busca: Option<string>, categoria: Option<CategoriaAtuacao>,
                                   minAvaliacao: Option<real>, orderBy: Option<string>, latitude: Option<Coordenada>,
                                   longitude: Option<Coordenada>, metricas: int -> Metricas, haversine: Haversine)
    ensures var r := ListaOrdenada(prestadores, busca, categoria, minAvaliacao, orderBy, latitude, longitude, metricas, haversine);
      Ordenado(CriterioDe(orderBy), r)
      && forall x :: x in r <==>
           (exists p :: p in prestadores && PassaFiltrosDaBusca(p, busca, categoria)
              && x == ResumoDe(p, latitude, longitude, metricas, haversine)) && AvaliacaoMinima(x, minAvaliacao)
  {
    var selecionados := SelecionarDaBusca(prestadores, busca, categoria);
    var resumos := Resumir(selecionados, latitude, longitude, metricas, haversine);
    MembrosDeResumir(selecionados, latitude, longitude, metricas, haversine);
    OrdenarMembros(CriterioDe(orderBy), AcimaDoMinimo(resumos, minAvaliacao));
  }

  /** Without the caller's latitude no summary has a distance, so the unpaginated list keeps the table's order. */
  lemma {:induction false} SemCoordenadasOrdemDaTabela(prestadores: seq<Prestador>, categoria: Option<CategoriaAtuacao>, cidade: Option<string>,
                                    uf: Option<string>, minAvaliacao: Option<real>, longitude: Option<Coordenada>,
                                    metricas: int -> Metricas, haversine: Haversine)
    ensures ListarPrestadores(prestadores, categoria, cidade, uf, minAvaliacao, None, longitude, metricas, haversine)
         == AcimaDoMinimo(Resumir(Selecionar(prestadores, categoria, cidade, uf), None, longitude, metricas, haversine), minAvaliacao)
  {
    var resumos := Resumir(Selecionar(prestadores, categoria, cidade, uf), None, longitude, metricas, haversine);
    var l := AcimaDoMinimo(resumos, minAvaliacao);
    forall x | x in resumos ensures x.distanciaKm.None? {
      var k :| 0 <= k < |resumos| && resumos[k] == x;
    }
    forall i, j | 0 <= i < j < |l| ensures Empatados(PorDistancia, l[i], l[j]) {
      assert l[i] in resumos && l[j] in resumos;
    }
    TodosEmpatados(PorDistancia, l);
  }

  /** A page: its content and the size of the whole list. */
  datatype Pagina = Pagina(conteudo: seq<PrestadorPublicoResumo>, total: int)

  /** The two ways `List.subList` refuses a range. */
  datatype FalhaDeIntervalo =
    | ForaDosLimites(mensagem: string)        // IndexOutOfBoundsException
    | IntervaloInvertido(mensagem: string)    // IllegalArgumentException

  /** The outcome of the cut: the page, or the exception `subList` throws. */
  datatype Corte = Cortada(value: Pagina) | Recusada(falha: FalhaDeIntervalo)

  function Min(a: int, b: int): int
  {
    if a <= b then a else b
  }

  lemma Int32SeCouber(v: int)
    ensures -0x8000_0000 <= v < 0x8000_0000 ==> Int32(v) == v
  {
    if -0x8000_0000 <= v < 0x8000_0000 {
      Int32Identidade(v);
    }
  }

  /**
   * The cut of `listarPrestadoresPaginated`: the page's offset (a `long`)
   * is narrowed to an `int`, the end is `min(inicio + tamanho, total)`
   * computed in `int`, and `subList` checks the range.
   */
  function Fatiar(lista: seq<PrestadorPublicoResumo>, deslocamento: int, tamanho: int): (r: Corte)
    requires 0 <= deslocamento && 1 <= tamanho < 0x8000_0000
    ensures r.Cortada? ==> r.value.total == |lista| && |r.value.conteudo| <= tamanho
    ensures r.Cortada? ==> forall x :: x in r.value.conteudo ==> x in lista
    ensures deslocamento + tamanho < 0x8000_0000 ==>
      (r.Cortada? <==> deslocamento <= |lista|)
      && (r.Cortada? ==> r.value.conteudo == lista[deslocamento .. Min(deslocamento + tamanho, |lista|)])
    ensures deslocamento + tamanho < 0x8000_0000 && deslocamento > |lista| ==>
      r == Recusada(IntervaloInvertido("fromIndex(" + LongToString(deslocamento) + ") > toIndex(" + LongToString(|lista|) + ")"))
  {
    var inicio := Int32(deslocamento);
    var fim := Min(Int32(inicio + tamanho), |lista|);
    Int32SeCouber(deslocamento);
    Int32SeCouber(deslocamento + tamanho);
    if inicio < 0 then Recusada(ForaDosLimites("fromIndex = " + LongToString(inicio)))
    else if inicio > fim then
      Recusada(IntervaloInvertido("fromIndex(" + LongToString(inicio) + ") > toIndex(" + LongToString(fim) + ")"))
    else
      Cortada(Pagina(lista[inicio..fim], |lista|))
  }

  /** The offset is narrowed to an `int`: page 65536 of 65536 rows is read as page 0. */
  lemma {:induction false} PaginaAlemDoInt(lista: seq<PrestadorPublicoResumo>)
    ensures Fatiar(lista, 0x1_0000 * 0x1_0000, 0x1_0000) == Fatiar(lista, 0, 0x1_0000)
  {
    assert 0x1_0000 * 0x1_0000 == 0x1_0000_0000;
    assert Int32(0x1_0000_0000) == 0;
    assert Int32(0 + 0x1_0000) == 0x1_0000;
  }

  lemma NaoNegativo(a: int, b: int)
    requires 0 <= a && 0 <= b
    ensures 0 <= a * b
  {
  }

  /** A cut of an ordered list is ordered. */
  lemma CorteOrdenado(c: Criterio, lista: seq<PrestadorPublicoResumo>, deslocamento: int, tamanho: int)
    requires 0 <= deslocamento && 1 <= tamanho < 0x8000_0000
    requires Ordenado(c, lista)
    ensures Fatiar(lista, deslocamento, tamanho).Cortada? ==> Ordenado(c, Fatiar(lista, deslocamento, tamanho).value.conteudo)
  {
  }

  /** A page cut from the ordered list is ordered and holds only summaries of matching providers. */
  lemma PaginaDaBusca(prestadores: seq<Prestador>, deslocamento: int, tamanho: int, busca: Option<string>,
                      categoria: Option<CategoriaAtuacao>, minAvaliacao: Option<real>, orderBy: Option<string>,
                      latitude: Option<Coordenada>, longitude: Option<Coordenada>,
                      metricas: int -> Metricas, haversine: Haversine)
    requires 0 <= deslocamento && 1 <= tamanho < 0x8000_0000
    ensures var lista := ListaOrdenada(prestadores, busca, categoria, minAvaliacao, orderBy, latitude, longitude, metricas, haversine);
      var r := Fatiar(lista, deslocamento, tamanho);
      r.Cortada? ==>
        Ordenado(CriterioDe(orderBy), r.value.conteudo)
        && forall x :: x in r.value.conteudo ==>
             (exists p :: p in prestadores && PassaFiltrosDaBusca(p, busca, categoria)
                && x == ResumoDe(p, latitude, longitude, metricas, haversine)) && AvaliacaoMinima(x, minAvaliacao)
  {
    var lista := ListaOrdenada(prestadores, busca, categoria, minAvaliacao, orderBy, latitude, longitude, metricas, haversine);
    ListaOrdenadaCaracterizada(prestadores, busca, categoria, minAvaliacao, orderBy, latitude, longitude, metricas, haversine);
    CorteOrdenado(CriterioDe(orderBy), lista, deslocamento, tamanho);
    var r := Fatiar(lista, deslocamento, tamanho);
    if r.Cortada? {
      forall x | x in r.value.conteudo
        ensures (exists p :: p in prestadores && PassaFiltrosDaBusca(p, busca, categoria)
                   && x == ResumoDe(p, latitude, longitude, metricas, haversine)) && AvaliacaoMinima(x, minAvaliacao)
      {
        assert x in lista;
      }
    }
  }

  /** `listarPrestadoresPaginated`. */
  function ListarPrestadoresPaginado(prestadores: seq<Prestador>, pagina: int, tamanho: int, busca: Option<string>,
                                     categoria: Option<CategoriaAtuacao>, minAvaliacao: Option<real>, orderBy: Option<string>,
                                     latitude: Option<Coordenada>, longitude: Option<Coordenada>,
                                     metricas: int -> Metricas, haversine: Haversine)
    : (r: Corte)
    requires 0 <= pagina < 0x8000_0000 && 1 <= tamanho < 0x8000_0000
    ensures r.Cortada? ==> Ordenado(CriterioDe(orderBy), r.value.conteudo)
    ensures r.Cortada? ==>
      forall x :: x in r.value.conteudo ==>
        (exists p :: p in prestadores && PassaFiltrosDaBusca(p, busca, categoria)
           && x == ResumoDe(p, latitude, longitude, metricas, haversine)) && AvaliacaoMinima(x, minAvaliacao)
    ensures var lista := ListaOrdenada(prestadores, busca, categoria, minAvaliacao, orderBy, latitude, longitude, metricas, haversine);
      var inicio := pagina * tamanho;
      (r.Cortada? ==> r.value.total == |lista|)
      && (0 <= inicio && inicio + tamanho < 0x8000_0000 ==>
            (r.Cortada? <==> inicio <= |lista|)
            && (r.Cortada? ==> r.value.conteudo == lista[inicio .. Min(inicio + tamanho, |lista|)]))
  {
    NaoNegativo(pagina, tamanho);
    PaginaDaBusca(prestadores, pagina * tamanho, tamanho, busca, categoria, minAvaliacao, orderBy, latitude, longitude, metricas, haversine);
    Fatiar(ListaOrdenada(prestadores, busca, categoria, minAvaliacao, orderBy, latitude, longitude, metricas, haversine),
           pagina * tamanho, tamanho)
  }

  /** `buscarDetalhe`: the provider's public data, a missing average as 0, its portfolio newest first. */
  function BuscarDetalhe(prestadorId: int, prestadores: seq<Prestador>, metricas: int -> Metricas,
                         portfolio: seq<Portfolio.PortfolioItem>): (r: Result<PrestadorPublicoDetalhe>)
    requires Portfolio.IdsCrescentes(portfolio)
    ensures r.Failure? <==> PrestadorPorId(prestadores, prestadorId).None?
    ensures r.Failure? ==> r.error == PRESTADOR_NAO_ENCONTRADO
    ensures r.Success? ==>
      var p := PrestadorPorId(prestadores, prestadorId).value;
      r.value.id == p.id && r.value.keycloakId == p.keycloakId && r.value.nomeFantasia == p.nomeFantasia
      && r.value.categoria == p.categoria && r.value.valorServico == p.valorServico && r.value.avatarUrl == p.avatarUrl
      && (p.endereco.None? ==> r.value.cidade.None? && r.value.uf.None?)
      && (p.endereco.Some? ==> r.value.cidade == p.endereco.value.cidade && r.value.uf == p.endereco.value.uf)
      && r.value.mediaAvaliacao == metricas(prestadorId).media.GetOr(0.0)
      && (forall x :: x in r.value.portfolio <==>
            exists it :: it in portfolio && it.prestadorId == prestadorId && x == Publico(it))
      && (forall i, j :: 0 <= i < j < |r.value.portfolio| ==> r.value.portfolio[i].id > r.value.portfolio[j].id)
  {
    match PrestadorPorId(prestadores, prestadorId)
    case None => Failure(PRESTADOR_NAO_ENCONTRADO)
    case Some(p) =>
      var itens := Portfolio.DoPrestadorInvertido(portfolio, prestadorId);
      var publicos := Publicos(itens);
      MembrosDePublicos(itens);
      var m := metricas(prestadorId);
      Success(PrestadorPublicoDetalhe(
        p.id, p.nomeFantasia, p.categoria,
        if p.endereco.Some? then p.endereco.value.cidade else None,
        if p.endereco.Some? then p.endereco.value.uf else None,
        p.valorServico, if m.media.Some? then m.media.value else 0.0, p.avatarUrl, publicos, p.keycloakId))
  }

  function Publico(it: Portfolio.PortfolioItem): PortfolioPublicoItem
  {
    PortfolioPublicoItem(it.id, it.titulo, it.descricao, it.imagemUrl)
  }

  function Publicos(itens: seq<Portfolio.PortfolioItem>): (r: seq<PortfolioPublicoItem>)
    ensures |r| == |itens|
    ensures forall i :: 0 <= i < |itens| ==> r[i] == Publico(itens[i])
  {
    if itens == [] then [] else [Publico(itens[0])] + Publicos(itens[1..])
  }

  lemma MembrosDePublicos(itens: seq<Portfolio.PortfolioItem>)
    ensures forall x :: x in Publicos(itens) <==> exists it :: it in itens && x == Publico(it)
  {
    var r := Publicos(itens);
    forall x ensures x in r <==> exists it :: it in itens && x == Publico(it) {
      if x in r {
        var i :| 0 <= i < |r| && r[i] == x;
        assert itens[i] in itens;
      }
      if exists it :: it in itens && x == Publico(it) {
        var it :| it in itens && x == Publico(it);
        var i :| 0 <= i < |itens| && itens[i] == it;
        assert r[i] == x;
      }
    }
  }
}
