/**
 * Local-disk storage: two logical buckets, each mapped to a base directory.
 * Every key is resolved against its bucket's base and normalised, and a key
 * whose result would leave that base is refused.
 */
module ArmazenamentoLocal {
  import opened Wrappers
  import opened Texto

  const BUCKET_DOCUMENTS: string := "documents"
  const BUCKET_AVATARS: string := "avatars"
  const UPLOAD_DIR_PADRAO: string := "uploads"
  const MEDIA_DIR_PADRAO: string := "media"
  const ARQUIVO_VAZIO: string := "Arquivo não pode ser vazio."
  const CHAVE_INVALIDA: string := "Chave inválida."

  /** An uploaded file: the name the client gave it and its bytes. */
  datatype Arquivo = Arquivo(nomeOriginal: Option<string>, conteudo: seq<bv8>)

  /** A null upload, or one without bytes (`MultipartFile.isEmpty`). */
  predicate Vazio(arquivo: Option<Arquivo>)
  {
    arquivo.None? || arquivo.value.conteudo == []
  }

  /** An absolute path, as its names from the root down. */
  type Caminho = seq<string>

  /** A name that normalisation keeps as it is. */
  predicate NomeComum(nome: string)
  {
    nome != "" && nome != "." && nome != ".."
  }

  /** A path holding only ordinary names, as `normalize` leaves it. */
  predicate Normalizado(p: Caminho)
  {
    forall i :: 0 <= i < |p| ==> NomeComum(p[i])
  }

  /** The non-empty pieces, in order. */
  function NaoVazios(p: seq<string>): (r: seq<string>)
    ensures |r| <= |p|
    ensures forall i :: 0 <= i < |r| ==> r[i] != "" && r[i] in p
  {
    if p == [] then []
    else
      var resto := NaoVazios(p[1..]);
      assert forall x :: x in resto ==> x in p;
      (if p[0] == "" then [] else [p[0]]) + resto
  }

  lemma {:induction false} NaoVaziosJuntados(p: seq<string>, q: seq<string>)
    ensures NaoVazios(p + q) == NaoVazios(p) + NaoVazios(q)
  {
    if p != [] {
      assert (p + q)[1..] == p[1..] + q;
      NaoVaziosJuntados(p[1..], q);
    } else {
      assert p + q == q;
    }
  }

  /** The names of a path string: the pieces between '/', repeated and trailing slashes ignored. */
  function Nomes(key: string): seq<string>
  {
    NaoVazios(Pedacos(key, '/'))
  }

  /** Names of text joined by '/' are the names of each side. */
  lemma NomesJuntados(a: string, b: string)
    ensures Nomes(a + "/" + b) == Nomes(a) + Nomes(b)
  {
    PedacosJuntados(a, b, '/');
    NaoVaziosJuntados(Pedacos(a, '/'), Pedacos(b, '/'));
  }

  /** A key read as an absolute path: it starts with '/'. */
  predicate Absoluta(key: string)
  {
    key != [] && key[0] == '/'
  }

  /**
   * `normalize` on an absolute path: "." is dropped and ".." removes the name
   * before it (and nothing at the root).
   */
  function NormalizarDe(pilha: Caminho, resto: seq<string>): (r: Caminho)
    ensures Normalizado(pilha) && (forall i :: 0 <= i < |resto| ==> resto[i] != "") ==> Normalizado(r)
    decreases |resto|
  {
    if resto == [] then pilha
    else if resto[0] == "." then NormalizarDe(pilha, resto[1..])
    else if resto[0] == ".." then NormalizarDe(if pilha == [] then [] else pilha[..|pilha| - 1], resto[1..])
    else NormalizarDe(pilha + [resto[0]], resto[1..])
  }

  function Normalizar(p: seq<string>): Caminho
  {
    NormalizarDe([], p)
  }

  /** Ordinary names go through normalisation unchanged. */
  lemma {:induction false} NormalizarComuns(pilha: Caminho, resto: seq<string>)
    requires Normalizado(resto)
    ensures NormalizarDe(pilha, resto) == pilha + resto
    decreases |resto|
  {
    if resto != [] {
      NormalizarComuns(pilha + [resto[0]], resto[1..]);
      assert pilha + [resto[0]] + resto[1..] == pilha + resto;
    }
  }

  /** Normalising a normalised path changes nothing. */
  lemma NormalizarIdempotente(p: Caminho)
    requires forall i :: 0 <= i < |p| ==> p[i] != ""
    ensures Normalizar(Normalizar(p)) == Normalizar(p)
  {
    NormalizarComuns([], Normalizar(p));
  }

  /** `base.resolve(key).normalize()`: an absolute key replaces the base altogether. */
  function Resolver(base: Caminho, key: string): Caminho
  {
    Normalizar(if Absoluta(key) then Nomes(key) else base + Nomes(key))
  }

  /** Whatever the key, the resolved path holds no ".", ".." or empty name. */
  lemma ResolvidoNormalizado(base: Caminho, key: string)
    requires Normalizado(base)
    ensures Normalizado(Resolver(base, key))
  {
  }

  /** `Path.startsWith`: name by name, not character by character. */
  predicate ComecaCom(p: Caminho, base: Caminho)
  {
    |base| <= |p| && p[..|base|] == base
  }

  /** A relative key of ordinary names lands at those names under the base. */
  lemma ChaveComumContida(base: Caminho, key: string)
    requires Normalizado(base) && !Absoluta(key) && Normalizado(Nomes(key))
    ensures Resolver(base, key) == base + Nomes(key)
    ensures ComecaCom(Resolver(base, key), base)
  {
    NormalizarComuns([], base + Nomes(key));
  }

  /** A key that climbs out of the base into a sibling directory is refused. */
  lemma {:induction false} SubirEscapa(base: Caminho, irmao: string)
    requires Normalizado(base) && base != [] && NomeComum(irmao) && '/' !in irmao && irmao != base[|base| - 1]
    ensures !ComecaCom(Resolver(base, "../" + irmao), base)
  {
    NomesDeSubir(irmao);
    SubirNormalizado(base, irmao);
    var r := Resolver(base, "../" + irmao);
    assert r[|base| - 1] == irmao;
  }

  /** The names of "../x", for a name x without '/'. */
  lemma {:induction false} NomesDeSubir(irmao: string)
    requires NomeComum(irmao) && '/' !in irmao
    ensures !Absoluta("../" + irmao)
    ensures Nomes("../" + irmao) == ["..", irmao]
  {
    var key := "../" + irmao;
    assert key == ".." + "/" + irmao;
    NomesJuntados("..", irmao);
    assert Pedacos("..", '/') == [".."] by {
      assert '/' !in "..";
    }
  }

  /** Going up one name and down into `irmao` replaces the base's last name. */
  lemma {:induction false} SubirNormalizado(base: Caminho, irmao: string)
    requires Normalizado(base) && base != [] && NomeComum(irmao)
    ensures Normalizar(base + ["..", irmao]) == base[..|base| - 1] + [irmao]
  {
    var b := base[..|base| - 1];
    assert NormalizarDe([], base + ["..", irmao]) == NormalizarDe(base, ["..", irmao]) by {
      NormalizarPrefixo([], base, ["..", irmao]);
      assert [] + base == base;
    }
    assert NormalizarDe(base, ["..", irmao]) == NormalizarDe(b, [irmao]);
    NormalizarComuns(b, [irmao]);
  }


  lemma {:induction false} NormalizarPrefixo(pilha: Caminho, comuns: Caminho, resto: seq<string>)
    requires Normalizado(comuns)
    ensures NormalizarDe(pilha, comuns + resto) == NormalizarDe(pilha + comuns, resto)
    decreases |comuns|
  {
    if comuns != [] {
      assert (comuns + resto)[1..] == comuns[1..] + resto;
      NormalizarPrefixo(pilha + [comuns[0]], comuns[1..], resto);
      assert pilha + [comuns[0]] + comuns[1..] == pilha + comuns;
    } else {
      assert comuns + resto == resto && pilha + comuns == pilha;
    }
  }

  /** An absolute key ignores the bucket: it resolves the same under any base. */
  lemma ChaveAbsolutaIgnoraBase(base1: Caminho, base2: Caminho, key: string)
    requires Absoluta(key)
    ensures Resolver(base1, key) == Resolver(base2, key)
  {
  }

  class LocalStorageService {
    const documentsBasePath: Caminho
    const avatarsBasePath: Caminho
    /** The files under both bases, by absolute path. */
    var arquivos: map<Caminho, seq<bv8>>

    /**
     * Both directories are made absolute against the working directory
     * `diretorioAtual` and normalised; unset ones default to "uploads" and "media".
     */
    constructor (diretorioAtual: Caminho, uploadDir: Option<string>, mediaDir: Option<string>,
                 arquivos: map<Caminho, seq<bv8>>)
      ensures documentsBasePath == Resolver(diretorioAtual, uploadDir.GetOr(UPLOAD_DIR_PADRAO))
      ensures avatarsBasePath == Resolver(diretorioAtual, mediaDir.GetOr(MEDIA_DIR_PADRAO))
      ensures this.arquivos == arquivos
    {
      documentsBasePath := Resolver(diretorioAtual, uploadDir.GetOr(UPLOAD_DIR_PADRAO));
      avatarsBasePath := Resolver(diretorioAtual, mediaDir.GetOr(MEDIA_DIR_PADRAO));
      this.arquivos := arquivos;
    }

    /** The base of a bucket: "documents" is the upload directory, any other name the media one. */
    function Base(bucket: string): Caminho
      reads this
    {
      if bucket == BUCKET_DOCUMENTS then documentsBasePath else avatarsBasePath
    }

    /** The path a key designates in a bucket. */
    function Destino(bucket: string, key: string): Caminho
      reads this
    {
      Resolver(Base(bucket), key)
    }

    /** A key whose path stays under its bucket's base. */
    predicate Valida(bucket: string, key: string)
      reads this
    {
      ComecaCom(Destino(bucket, key), Base(bucket))
    }

    /**
     * `salvar`: an empty upload is refused, then a key leaving the base;
     * otherwise the bytes are written at the key's path and the key is returned.
     */
    method Salvar(bucket: string, key: string, arquivo: Option<Arquivo>) returns (r: Result<string>)
      modifies this
      ensures Vazio(arquivo) ==> r == Failure(ARQUIVO_VAZIO)
      ensures !Vazio(arquivo) && !Valida(bucket, key) ==> r == Failure(CHAVE_INVALIDA)
      ensures r.Failure? ==> arquivos == old(arquivos)
      ensures r.Success? ==> r.value == key && arquivos == old(arquivos)[Destino(bucket, key) := arquivo.value.conteudo]
      ensures r.Success? <==> !Vazio(arquivo) && Valida(bucket, key)
    {
      if arquivo.None? || arquivo.value.conteudo == [] {
        return Failure(ARQUIVO_VAZIO);
      }
      var base := if bucket == BUCKET_DOCUMENTS then documentsBasePath else avatarsBasePath;
      var fullPath := Resolver(base, key);
      if !ComecaCom(fullPath, base) {
        return Failure(CHAVE_INVALIDA);
      }
      arquivos := arquivos[fullPath := arquivo.value.conteudo];
      return Success(key);
    }

    /** `excluir`: removes the file at the key's path; an escaping key or a missing file is ignored. */
    method Excluir(bucket: string, key: string)
      modifies this
      ensures arquivos == if Valida(bucket, key) then old(arquivos) - {Destino(bucket, key)} else old(arquivos)
    {
      var base := if bucket == BUCKET_DOCUMENTS then documentsBasePath else avatarsBasePath;
      var fullPath := Resolver(base, key);
      if !ComecaCom(fullPath, base) {
        return;
      }
      if fullPath in arquivos {
        arquivos := arquivos - {fullPath};
      }
    }

    /** `obterRecurso`: the path of the file a key designates, or null for an escaping or missing key. */
    function ObterRecurso(bucket: string, key: string): Option<Caminho>
      reads this
    {
      var base := Base(bucket);
      var fullPath := Resolver(base, key);
      if !ComecaCom(fullPath, base) || fullPath !in arquivos then None else Some(fullPath)
    }

    /**
     * Save, read back, delete and read again: the key comes back unchanged,
     * the resource exists after saving and is gone after deleting.
     */
    method SalvarObterExcluir(bucket: string, key: string, arquivo: Option<Arquivo>)
      returns (salvo: Result<string>, antes: Option<Caminho>, depois: Option<Caminho>)
      requires !Vazio(arquivo) && Valida(bucket, key)
      modifies this
      ensures salvo == Success(key)
      ensures antes == Some(Destino(bucket, key))
      ensures depois.None?
    {
      salvo := Salvar(bucket, key, arquivo);
      antes := ObterRecurso(bucket, key);
      Excluir(bucket, key);
      depois := ObterRecurso(bucket, key);
    }
  }

  /** A resource is only ever served from inside its bucket's base, and only when the file exists. */
  lemma RecursoDentroDaBase(s: LocalStorageService, bucket: string, key: string)
    ensures s.ObterRecurso(bucket, key).Some? ==>
      ComecaCom(s.ObterRecurso(bucket, key).value, s.Base(bucket)) && s.ObterRecurso(bucket, key).value in s.arquivos
  {
  }
}
