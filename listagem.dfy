/**
 * `GET /api/prestadores`: the paginated catalogue behind the client's and
 * provider's search screen, with its page defaults and the lenient parsing
 * of the category parameter.
 */
module ListagemPrestadores {
  import opened Wrappers
  import opened Texto
  import opened Dominio
  import opened Catalogo

  /** The request parameters' defaults. */
  const PAGINA_PADRAO: int := 0
  const TAMANHO_PADRAO: int := 10

  /** `CategoriaAtuacao.name()`. */
  function NomeCategoria(c: CategoriaAtuacao): string
  {
    match c
    case ELETRICISTA => "ELETRICISTA"
    case ENCANADOR => "ENCANADOR"
    case PINTOR => "PINTOR"
    case PEDREIRO => "PEDREIRO"
    case MARCENEIRO => "MARCENEIRO"
    case AR_CONDICIONADO => "AR_CONDICIONADO"
    case JARDINAGEM => "JARDINAGEM"
    case LIMPEZA => "LIMPEZA"
    case DEDETIZACAO => "DEDETIZACAO"
    case SERRALHERIA => "SERRALHERIA"
    case VIDRACEIRO => "VIDRACEIRO"
    case GESSO => "GESSO"
    case PISO => "PISO"
    case REFORMAS_GERAIS => "REFORMAS_GERAIS"
    case OUTROS => "OUTROS"
  }

  /** `CategoriaAtuacao.valueOf`: the constant with exactly this name, if any. */
  function ValueOf(s: string): (r: Option<CategoriaAtuacao>)
    ensures r.Some? ==> NomeCategoria(r.value) == s
    ensures r.None? <==> forall c :: NomeCategoria(c) != s
  {
    if s == "ELETRICISTA" then Some(ELETRICISTA)
    else if s == "ENCANADOR" then Some(ENCANADOR)
    else if s == "PINTOR" then Some(PINTOR)
    else if s == "PEDREIRO" then Some(PEDREIRO)
    else if s == "MARCENEIRO" then Some(MARCENEIRO)
    else if s == "AR_CONDICIONADO" then Some(AR_CONDICIONADO)
    else if s == "JARDINAGEM" then Some(JARDINAGEM)
    else if s == "LIMPEZA" then Some(LIMPEZA)
    else if s == "DEDETIZACAO" then Some(DEDETIZACAO)
    else if s == "SERRALHERIA" then Some(SERRALHERIA)
    else if s == "VIDRACEIRO" then Some(VIDRACEIRO)
    else if s == "GESSO" then Some(GESSO)
    else if s == "PISO" then Some(PISO)
    else if s == "REFORMAS_GERAIS" then Some(REFORMAS_GERAIS)
    else if s == "OUTROS" then Some(OUTROS)
    else None
  }

  /** The normalisation of one character: upper case, then '-' and ' ' become '_'. */
  function NormalizarChar(c: char): char
  {
    var u := ToUpperChar(c);
    if u == '-' || u == ' ' then '_' else u
  }

  /** `valor.toUpperCase().replace("-", "_").replace(" ", "_")`. */
  function Chave(valor: string): (r: string)
    ensures |r| == |valor|
    ensures forall i :: 0 <= i < |valor| ==> r[i] == NormalizarChar(valor[i])
  {
    ReplaceChar(ReplaceChar(ToUpper(valor), '-', '_'), ' ', '_')
  }

  /**
   * `parseCategoria`: null for a null or blank value and for a value that
   * names no category once normalised; an unknown category is not an error.
   */
  function ParseCategoria(valor: Option<string>): (r: Option<CategoriaAtuacao>)
    ensures valor.None? || IsBlank(valor.value) ==> r.None?
    ensures valor.Some? && !IsBlank(valor.value) ==>
      (r.None? <==> forall c :: NomeCategoria(c) != Chave(valor.value))
    ensures r.Some? ==> NomeCategoria(r.value) == Chave(valor.value)
  {
    if valor.None? || IsBlank(valor.value) then None else ValueOf(Chave(valor.value))
  }

  /** A key is the normalisation of a value character by character. */
  lemma ChavePorCaractere(a: string, b: string)
    requires |a| == |b| && forall i :: 0 <= i < |a| ==> NormalizarChar(a[i]) == b[i]
    ensures Chave(a) == b
  {
  }

  /** A constant's name: a capital letter, then capitals and '_'. */
  predicate NomeDeConstante(s: string)
  {
    s != [] && 'A' <= s[0] <= 'Z' && forall i :: 0 <= i < |s| ==> 'A' <= s[i] <= 'Z' || s[i] == '_'
  }

  lemma NomesDeConstante(c: CategoriaAtuacao)
    ensures NomeDeConstante(NomeCategoria(c))
  {
    if c.ELETRICISTA? || c.ENCANADOR? || c.PINTOR? || c.PEDREIRO? || c.MARCENEIRO? {
      NomesDoPrimeiroGrupo(c);
    } else if c.AR_CONDICIONADO? || c.JARDINAGEM? || c.LIMPEZA? || c.DEDETIZACAO? || c.SERRALHERIA? {
      NomesDoSegundoGrupo(c);
    } else {
      NomesDoTerceiroGrupo(c);
    }
  }

  lemma NomesDoPrimeiroGrupo(c: CategoriaAtuacao)
    requires c.ELETRICISTA? || c.ENCANADOR? || c.PINTOR? || c.PEDREIRO? || c.MARCENEIRO?
    ensures NomeDeConstante(NomeCategoria(c))
  {
    if c.ELETRICISTA? { assert NomeDeConstante("ELETRICISTA"); }
    if c.ENCANADOR? { assert NomeDeConstante("ENCANADOR"); }
    if c.PINTOR? { assert NomeDeConstante("PINTOR"); }
    if c.PEDREIRO? { assert NomeDeConstante("PEDREIRO"); }
    if c.MARCENEIRO? { assert NomeDeConstante("MARCENEIRO"); }
  }

  lemma NomesDoSegundoGrupo(c: CategoriaAtuacao)
    requires c.AR_CONDICIONADO? || c.JARDINAGEM? || c.LIMPEZA? || c.DEDETIZACAO? || c.SERRALHERIA?
    ensures NomeDeConstante(NomeCategoria(c))
  {
    if c.AR_CONDICIONADO? { assert NomeDeConstante("AR_CONDICIONADO"); }
    if c.JARDINAGEM? { assert NomeDeConstante("JARDINAGEM"); }
    if c.LIMPEZA? { assert NomeDeConstante("LIMPEZA"); }
    if c.DEDETIZACAO? { assert NomeDeConstante("DEDETIZACAO"); }
    if c.SERRALHERIA? { assert NomeDeConstante("SERRALHERIA"); }
  }

  lemma NomesDoTerceiroGrupo(c: CategoriaAtuacao)
    requires c.VIDRACEIRO? || c.GESSO? || c.PISO? || c.REFORMAS_GERAIS? || c.OUTROS?
    ensures NomeDeConstante(NomeCategoria(c))
  {
    if c.VIDRACEIRO? { assert NomeDeConstante("VIDRACEIRO"); }
    if c.GESSO? { assert NomeDeConstante("GESSO"); }
    if c.PISO? { assert NomeDeConstante("PISO"); }
    if c.REFORMAS_GERAIS? { assert NomeDeConstante("REFORMAS_GERAIS"); }
    if c.OUTROS? { assert NomeDeConstante("OUTROS"); }
  }

  /** Every category's own name selects it. */
  lemma NomeSelecionaCategoria(c: CategoriaAtuacao)
    ensures ParseCategoria(Some(NomeCategoria(c))) == Some(c)
  {
    var n := NomeCategoria(c);
    NomesDeConstante(c);
    ChavePorCaractere(n, n);
    assert !IsWhitespace(n[0]);
    var r := ValueOf(n);
    assert r.Some?;
    CategoriaInjetiva(r.value, c);
  }

  lemma CategoriaInjetiva(a: CategoriaAtuacao, b: CategoriaAtuacao)
    requires NomeCategoria(a) == NomeCategoria(b)
    ensures a == b
  {
  }

  /**
   * Any spelling whose key is a category's name selects that category:
   * "ar-condicionado", "Ar Condicionado" and "AR_CONDICIONADO" alike.
   */
  lemma ChaveSelecionaCategoria(v: string, c: CategoriaAtuacao)
    requires Chave(v) == NomeCategoria(c)
    ensures ParseCategoria(Some(v)) == Some(c)
  {
    NomesDeConstante(c);
    assert 'A' <= NormalizarChar(v[0]) <= 'Z';
    var r := ValueOf(Chave(v));
    CategoriaInjetiva(r.value, c);
  }

  /** Two values with the same key select the same category. */
  lemma MesmaChaveMesmaCategoria(v: string, w: string)
    requires v != [] && w != [] && !IsWhitespace(v[0]) && !IsWhitespace(w[0])
    requires |v| == |w| && forall i :: 0 <= i < |v| ==> NormalizarChar(v[i]) == NormalizarChar(w[i])
    ensures ParseCategoria(Some(v)) == ParseCategoria(Some(w))
  {
    assert Chave(v) == Chave(w);
  }

  /** What `listar` answers: a page (or the range error of the cut), or the page request refused. */
  datatype Listagem = Listada(corte: Corte) | PaginacaoInvalida(mensagem: string)

  const PAGINA_NEGATIVA: string := "Page index must not be less than zero"
  const TAMANHO_INVALIDO: string := "Page size must not be less than one"

  /**
   * `listar`: `PageRequest.of(page, size)` refuses a negative page or a size
   * below one; otherwise the paginated catalogue for the parsed category.
   */
  function Listar(prestadores: seq<Prestador>, pagina: int, tamanho: int, busca: Option<string>, categoria: Option<string>,
                  avaliacaoMin: Option<real>, orderBy: Option<string>, latitude: Option<Coordenada>,
                  longitude: Option<Coordenada>, metricas: int -> Metricas, haversine: Haversine): (r: Listagem)
    requires -0x8000_0000 <= pagina < 0x8000_0000 && -0x8000_0000 <= tamanho < 0x8000_0000
    ensures pagina < 0 ==> r == PaginacaoInvalida(PAGINA_NEGATIVA)
    ensures pagina >= 0 && tamanho < 1 ==> r == PaginacaoInvalida(TAMANHO_INVALIDO)
    ensures r.Listada? <==> pagina >= 0 && tamanho >= 1
    ensures r.Listada? && r.corte.Cortada? ==> Ordenado(CriterioDe(orderBy), r.corte.value.conteudo)
    ensures r.Listada? && r.corte.Cortada? ==>
      forall x :: x in r.corte.value.conteudo ==>
        (exists p :: p in prestadores && PassaFiltrosDaBusca(p, busca, ParseCategoria(categoria))
           && x == ResumoDe(p, latitude, longitude, metricas, haversine)) && AvaliacaoMinima(x, avaliacaoMin)
    ensures r.Listada? ==>
      var lista := ListaOrdenada(prestadores, busca, ParseCategoria(categoria), avaliacaoMin, orderBy, latitude, longitude,
                                 metricas, haversine);
      var inicio := pagina * tamanho;
      (r.corte.Cortada? ==> r.corte.value.total == |lista|)
      && (0 <= inicio && inicio + tamanho < 0x8000_0000 ==>
            (r.corte.Cortada? <==> inicio <= |lista|)
            && (r.corte.Cortada? ==> r.corte.value.conteudo == lista[inicio .. Min(inicio + tamanho, |lista|)]))
  {
    if pagina < 0 then PaginacaoInvalida(PAGINA_NEGATIVA)
    else if tamanho < 1 then PaginacaoInvalida(TAMANHO_INVALIDO)
    else Listada(ListarPrestadoresPaginado(prestadores, pagina, tamanho, busca, ParseCategoria(categoria), avaliacaoMin,
                                           orderBy, latitude, longitude, metricas, haversine))
  }

  /** Without parameters the first ten providers of the distance order are shown. */
  lemma PrimeiraPaginaPadrao(prestadores: seq<Prestador>, metricas: int -> Metricas, haversine: Haversine)
    ensures var r := Listar(prestadores, PAGINA_PADRAO, TAMANHO_PADRAO, None, None, None, None, None, None, metricas, haversine);
      var lista := ListaOrdenada(prestadores, None, None, None, None, None, None, metricas, haversine);
      r.Listada? && r.corte == Cortada(Pagina(lista[..Min(10, |lista|)], |lista|))
  {
  }
}
