/**
 * The two upload services in front of the storage: media files go to the
 * avatars bucket under a folder chosen by the caller, provider documents to
 * the documents bucket under the provider's own folder. Each file is renamed
 * to a fresh UUID, keeping only the extension of the client's file name.
 */
module Armazenamento {
  import opened Wrappers
  import opened Texto
  import opened Numeros
  import opened ArmazenamentoLocal

  const NOME_PADRAO_MIDIA: string := "arquivo"
  const NOME_PADRAO_DOCUMENTO: string := "documento"

  /** The client's file name, or the default when it is null or blank. */
  function NomeOuPadrao(nome: Option<string>, padrao: string): string
  {
    if nome.None? || IsBlank(nome.value) then padrao else nome.value
  }

  /**
   * The extension kept from a file name: from its last '.' on, provided that
   * '.' is not the first character ("" otherwise).
   */
  function Extensao(nome: string): (r: string)
    ensures r == "" <==> LastIndexOf(nome, '.') <= 0
    ensures r != "" ==> r[0] == '.' && '.' !in r[1..] && EndsWith(nome, r) && |r| < |nome|
  {
    var i := LastIndexOf(nome, '.');
    if i > 0 then
      assert forall k :: 1 <= k < |nome[i..]| ==> nome[i..][k] == nome[i + k];
      nome[i..]
    else ""
  }

  /** A name that starts with a dot and has no other keeps nothing: hidden files lose no extension. */
  lemma OcultoSemExtensao(resto: string)
    requires '.' !in resto
    ensures Extensao("." + resto) == ""
  {
    var nome := "." + resto;
    assert forall k :: 1 <= k < |nome| ==> nome[k] == resto[k - 1];
  }

  /** The characters of `UUID.toString`: lower-case hex digits and '-'. */
  predicate UuidTexto(u: string)
  {
    u != "" && forall i :: 0 <= i < |u| ==> ('0' <= u[i] <= '9') || ('a' <= u[i] <= 'f') || u[i] == '-'
  }

  /** The stored file name: the UUID and the original extension. */
  function NomeUnico(uuid: string, nome: Option<string>, padrao: string): string
  {
    uuid + Extensao(NomeOuPadrao(nome, padrao))
  }

  /** A media key: the folder, '/', the unique name. */
  function ChaveDeMidia(pasta: string, uuid: string, nome: Option<string>): string
  {
    pasta + "/" + NomeUnico(uuid, nome, NOME_PADRAO_MIDIA)
  }

  /** A provider's document folder. */
  function PastaDoPrestador(prestadorId: int): string
  {
    "prestador-" + LongToString(prestadorId)
  }

  /** A document key: the provider's folder, '/', the unique name. */
  function ChaveDeDocumento(prestadorId: int, uuid: string, nome: Option<string>): string
  {
    PastaDoPrestador(prestadorId) + "/" + NomeUnico(uuid, nome, NOME_PADRAO_DOCUMENTO)
  }

  /**
   * Whatever the client called the file, the unique name splits into
   * ordinary names only: the UUID starts the first, and the extension brings
   * no further '.'.
   */
  lemma {:induction false} NomeUnicoComum(uuid: string, nome: Option<string>, padrao: string)
    requires UuidTexto(uuid)
    ensures Normalizado(Nomes(NomeUnico(uuid, nome, padrao)))
  {
    var ext := Extensao(NomeOuPadrao(nome, padrao));
    var b := uuid + ext;
    var p := Pedacos(b, '/');
    assert b[0] == uuid[0] && b[0] != '/';
    var primeiro := BeforeFirst(b, '/');
    assert primeiro != "" && primeiro[0] != '.';
    assert forall i :: 0 <= i < |uuid| ==> b[i] != '/';
    if '/' in b {
      var depois := AfterFirst(b, '/');
      var q := |primeiro|;
      assert b == primeiro + ['/'] + depois;
      assert b[q] == '/';
      assert ext != "";
      assert b[|uuid|] == '.';
      assert q > |uuid|;
      DepoisDaBarraSemPonto(uuid, ext, primeiro, depois);
      CaracteresDosPedacos(depois, '/');
      assert p == [primeiro] + Pedacos(depois, '/');
      forall k | 0 <= k < |p| && p[k] != ""
        ensures NomeComum(p[k])
      {
        if k > 0 {
          assert p[k] == Pedacos(depois, '/')[k - 1];
          assert p[k][0] in depois;
        }
      }
    } else {
      assert p == [b];
    }
    var n := Nomes(NomeUnico(uuid, nome, padrao));
    forall i | 0 <= i < |n|
      ensures NomeComum(n[i])
    {
      var k :| 0 <= k < |p| && p[k] == n[i];
    }
  }

  /** When the first '/' of `uuid + ext` lies past the UUID's '.', what follows it has no '.'. */
  lemma {:induction false} DepoisDaBarraSemPonto(uuid: string, ext: string, primeiro: string, depois: string)
    requires uuid + ext == primeiro + ['/'] + depois
    requires |primeiro| > |uuid| && ext != "" && '.' !in ext[1..]
    ensures '.' !in depois
  {
    var b, q := uuid + ext, |primeiro|;
    forall m | 0 <= m < |depois|
      ensures depois[m] != '.'
    {
      assert depois[m] == b[q + 1 + m];
      assert b[q + 1 + m] == ext[q + 1 + m - |uuid|];
      assert ext[q + 1 + m - |uuid|] == ext[1..][q + m - |uuid|];
    }
  }

  /**
   * A non-empty relative folder of ordinary names and a UUID make a key that
   * stays in the bucket: the file lands at base/folder/unique-name, so the
   * storage never refuses it as invalid. (An empty folder would make the key
   * absolute.)
   */
  lemma ChaveDeMidiaContida(base: Caminho, pasta: string, uuid: string, nome: Option<string>)
    requires Normalizado(base) && UuidTexto(uuid)
    requires pasta != "" && !Absoluta(pasta) && Normalizado(Nomes(pasta))
    ensures Resolver(base, ChaveDeMidia(pasta, uuid, nome)) == base + Nomes(pasta) + Nomes(NomeUnico(uuid, nome, NOME_PADRAO_MIDIA))
    ensures ComecaCom(Resolver(base, ChaveDeMidia(pasta, uuid, nome)), base)
  {
    NomeUnicoComum(uuid, nome, NOME_PADRAO_MIDIA);
    ChaveEmPastaContida(base, pasta, NomeUnico(uuid, nome, NOME_PADRAO_MIDIA));
  }

  lemma ChaveEmPastaContida(base: Caminho, pasta: string, unico: string)
    requires Normalizado(base) && pasta != "" && !Absoluta(pasta) && Normalizado(Nomes(pasta))
    requires Normalizado(Nomes(unico))
    ensures Resolver(base, pasta + "/" + unico) == base + Nomes(pasta) + Nomes(unico)
    ensures ComecaCom(Resolver(base, pasta + "/" + unico), base)
  {
    var key := pasta + "/" + unico;
    NomesJuntados(pasta, unico);
    NormalizadosJuntos(Nomes(pasta), Nomes(unico));
    assert key[0] == pasta[0];
    ChaveComumContida(base, key);
    Associar(base, Nomes(pasta), Nomes(unico));
  }

  lemma NormalizadosJuntos(n1: Caminho, n2: Caminho)
    requires Normalizado(n1) && Normalizado(n2)
    ensures Normalizado(n1 + n2)
  {
    assert forall i :: |n1| <= i < |n1 + n2| ==> (n1 + n2)[i] == n2[i - |n1|];
  }

  /** The folder "prestador-<id>" is one ordinary name. */
  lemma PastaDoPrestadorComum(prestadorId: int)
    ensures !Absoluta(PastaDoPrestador(prestadorId))
    ensures Nomes(PastaDoPrestador(prestadorId)) == [PastaDoPrestador(prestadorId)]
  {
    var pasta := PastaDoPrestador(prestadorId);
    var digitos := LongToString(prestadorId);
    assert '/' !in pasta by {
      forall i | 0 <= i < |pasta|
        ensures pasta[i] != '/'
      {
        if i >= 10 {
          assert pasta[i] == digitos[i - 10];
          if prestadorId < 0 && i > 10 {
            assert digitos[i - 10] == digitos[1..][i - 11];
          }
        }
      }
    }
    assert Pedacos(pasta, '/') == [pasta];
  }

  /**
   * A document key always stays in the documents bucket, whatever the file
   * was called: saving a non-empty document never fails as an invalid key.
   */
  lemma ChaveDeDocumentoContida(base: Caminho, prestadorId: int, uuid: string, nome: Option<string>)
    requires Normalizado(base) && UuidTexto(uuid)
    ensures ComecaCom(Resolver(base, ChaveDeDocumento(prestadorId, uuid, nome)), base)
  {
    var pasta := PastaDoPrestador(prestadorId);
    PastaDoPrestadorComum(prestadorId);
    assert NomeComum(pasta) by {
      assert pasta[0] == 'p';
    }
    NomeUnicoComum(uuid, nome, NOME_PADRAO_DOCUMENTO);
    ChaveEmPastaContida(base, pasta, NomeUnico(uuid, nome, NOME_PADRAO_DOCUMENTO));
  }

  class ArmazenamentoMidiaService {
    const storage: LocalStorageService

    constructor (storage: LocalStorageService)
      ensures this.storage == storage
    {
      this.storage := storage;
    }

    /**
     * `salvar`: an empty upload is refused; otherwise the file is saved in
     * the avatars bucket under `pasta`/UUID+extension and that key is returned.
     */
    method Salvar(pasta: string, arquivo: Option<Arquivo>, uuid: string) returns (r: Result<string>)
      modifies storage
      ensures Vazio(arquivo) ==> r == Failure(ARQUIVO_VAZIO) && storage.arquivos == old(storage.arquivos)
      ensures !Vazio(arquivo) ==>
        var key := ChaveDeMidia(pasta, uuid, arquivo.value.nomeOriginal);
        && (r.Success? <==> storage.Valida(BUCKET_AVATARS, key))
        && (r.Success? ==> (r.value == key
              && storage.arquivos == old(storage.arquivos)[storage.Destino(BUCKET_AVATARS, key) := arquivo.value.conteudo]))
        && (r.Failure? ==> r.error == CHAVE_INVALIDA && storage.arquivos == old(storage.arquivos))
    {
      if arquivo.None? || arquivo.value.conteudo == [] {
        return Failure(ARQUIVO_VAZIO);
      }
      var nomeOriginal := NomeOuPadrao(arquivo.value.nomeOriginal, NOME_PADRAO_MIDIA);
      var nomeUnico := uuid + Extensao(nomeOriginal);
      var key := pasta + "/" + nomeUnico;
      r := storage.Salvar(BUCKET_AVATARS, key, arquivo);
    }
  }

  class ArmazenamentoDocumentoService {
    const storage: LocalStorageService

    constructor (storage: LocalStorageService)
      ensures this.storage == storage
    {
      this.storage := storage;
    }

    /**
     * `salvar`: an empty upload is refused; otherwise the file is saved in
     * the documents bucket under "prestador-<id>"/UUID+extension and that key
     * is returned.
     */
    method Salvar(prestadorId: int, arquivo: Option<Arquivo>, uuid: string) returns (r: Result<string>)
      modifies storage
      ensures Vazio(arquivo) ==> r == Failure(ARQUIVO_VAZIO) && storage.arquivos == old(storage.arquivos)
      ensures !Vazio(arquivo) ==>
        var key := ChaveDeDocumento(prestadorId, uuid, arquivo.value.nomeOriginal);
        && (r.Success? <==> storage.Valida(BUCKET_DOCUMENTS, key))
        && (r.Success? ==> (r.value == key
              && storage.arquivos == old(storage.arquivos)[storage.Destino(BUCKET_DOCUMENTS, key) := arquivo.value.conteudo]))
        && (r.Failure? ==> r.error == CHAVE_INVALIDA && storage.arquivos == old(storage.arquivos))
    {
      if arquivo.None? || arquivo.value.conteudo == [] {
        return Failure(ARQUIVO_VAZIO);
      }
      var nomeOriginal := NomeOuPadrao(arquivo.value.nomeOriginal, NOME_PADRAO_DOCUMENTO);
      var nomeUnico := uuid + Extensao(nomeOriginal);
      var key := "prestador-" + LongToString(prestadorId) + "/" + nomeUnico;
      r := storage.Salvar(BUCKET_DOCUMENTS, key, arquivo);
    }

    /** `obterRecurso`: the document at a stored path, from the documents bucket. */
    function ObterRecurso(caminhoRelativo: string): (r: Option<Caminho>)
      reads this, storage
      ensures r.Some? ==> ComecaCom(r.value, storage.documentsBasePath) && r.value in storage.arquivos
    {
      storage.ObterRecurso(BUCKET_DOCUMENTS, caminhoRelativo)
    }

    /** `excluir`: deletes the document at a stored path. */
    method Excluir(caminhoRelativo: string)
      modifies storage
      ensures storage.arquivos == if storage.Valida(BUCKET_DOCUMENTS, caminhoRelativo)
        then old(storage.arquivos) - {storage.Destino(BUCKET_DOCUMENTS, caminhoRelativo)} else old(storage.arquivos)
    {
      storage.Excluir(BUCKET_DOCUMENTS, caminhoRelativo);
    }
  }
}
