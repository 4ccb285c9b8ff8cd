/**
 * The API's error responses: every exception that escapes a controller is
 * classified into an HTTP status, a machine-readable code and a message, and
 * an internal error never leaks its own message.
 */
module Excecoes {
  import opened Wrappers
  import opened Texto
  import opened Tempo

  const TRECHO_NAO_ENCONTRADO: string := "não encontrado"
  const REQUISICAO_INVALIDA_PADRAO: string := "Requisição inválida"
  const MENSAGEM_INTERNA: string := "Erro interno. Tente novamente mais tarde."

  datatype CampoErro = CampoErro(campo: string, mensagem: Option<string>)

  /** The JSON error body; `erros` is present only for validation failures. */
  datatype ErroResponse = ErroResponse(
    codigo: string,
    mensagem: string,
    path: string,
    timestamp: Instante,
    requestId: string,
    erros: Option<seq<CampoErro>>)

  datatype RespostaDeErro = RespostaDeErro(status: int, corpo: ErroResponse)

  /** The exception kinds with a handler of their own, and everything else. */
  datatype Excecao =
    | ArgumentoDeMetodoInvalido(errosDeCampo: seq<CampoErro>)
    | AcessoNegado
    | ArgumentoIlegal(mensagem: Option<string>)
    | Outra(mensagemOriginal: Option<string>)

  /** `requestId()`: the diagnostic context's request id, "" when there is none. */
  function RequestId(mdc: Option<string>): (r: string)
    ensures mdc.None? ==> r == ""
    ensures mdc.Some? ==> r == mdc.value
  {
    mdc.GetOr("")
  }

  /** The message an `IllegalArgumentException` is reported with. */
  function MensagemDe(mensagem: Option<string>): string
  {
    mensagem.GetOr(REQUISICAO_INVALIDA_PADRAO)
  }

  /** The handler Spring picks for `ex`, applied to a request for `path`. */
  function Tratar(ex: Excecao, path: string, agora: Instante, mdc: Option<string>): (r: RespostaDeErro)
    ensures r.corpo.path == path && r.corpo.timestamp == agora && r.corpo.requestId == RequestId(mdc)
    ensures r.status == 404 <==> ex.ArgumentoIlegal? && Contains(MensagemDe(ex.mensagem), TRECHO_NAO_ENCONTRADO)
    ensures r.status == 403 <==> ex.AcessoNegado?
    ensures r.status == 500 <==> ex.Outra?
    ensures r.status == 400 <==> (ex.ArgumentoDeMetodoInvalido?
      || (ex.ArgumentoIlegal? && !Contains(MensagemDe(ex.mensagem), TRECHO_NAO_ENCONTRADO)))
    ensures ex.ArgumentoIlegal? ==> r.corpo.mensagem == MensagemDe(ex.mensagem)
    ensures ex.Outra? ==> r.corpo.codigo == "ERRO_INTERNO" && r.corpo.mensagem == MENSAGEM_INTERNA
    ensures r.corpo.erros.Some? <==> ex.ArgumentoDeMetodoInvalido?
    ensures ex.ArgumentoDeMetodoInvalido? ==> r.corpo.erros == Some(ex.errosDeCampo)
  {
    var id := RequestId(mdc);
    match ex
    case ArgumentoDeMetodoInvalido(erros) =>
      RespostaDeErro(400, ErroResponse("VALIDACAO", "Erro de validação", path, agora, id, Some(erros)))
    case AcessoNegado =>
      RespostaDeErro(403, ErroResponse("ACESSO_NEGADO", "Acesso negado.", path, agora, id, None))
    case ArgumentoIlegal(m) =>
      var msg := MensagemDe(m);
      var naoEncontrado := Contains(msg, TRECHO_NAO_ENCONTRADO);
      RespostaDeErro(if naoEncontrado then 404 else 400,
        ErroResponse(if naoEncontrado then "NAO_ENCONTRADO" else "REQUISICAO_INVALIDA", msg, path, agora, id, None))
    case Outra(_) =>
      RespostaDeErro(500, ErroResponse("ERRO_INTERNO", MENSAGEM_INTERNA, path, agora, id, None))
  }

  /** An internal error's response is the same whatever the exception said. */
  lemma InternoNaoExpoe(m1: Option<string>, m2: Option<string>, path: string, agora: Instante, mdc: Option<string>)
    ensures Tratar(Outra(m1), path, agora, mdc) == Tratar(Outra(m2), path, agora, mdc)
  {
  }

  /**
   * A message written as `<antes>não encontrado<depois>`, the shape of every
   * service's "... não encontrado." failure, is classified as not found.
   */
  lemma ContemNaoEncontrado(antes: string, depois: string)
    ensures Contains(antes + TRECHO_NAO_ENCONTRADO + depois, TRECHO_NAO_ENCONTRADO)
  {
    var s := antes + TRECHO_NAO_ENCONTRADO + depois;
    assert OccursAt(s, TRECHO_NAO_ENCONTRADO, |antes|) by {
      assert s[|antes|..|antes| + |TRECHO_NAO_ENCONTRADO|] == TRECHO_NAO_ENCONTRADO;
    }
  }

  /** A null message becomes "Requisição inválida", which is a 400. */
  lemma MensagemNulaEhInvalida(path: string, agora: Instante, mdc: Option<string>)
    ensures Tratar(ArgumentoIlegal(None), path, agora, mdc).status == 400
    ensures Tratar(ArgumentoIlegal(None), path, agora, mdc).corpo.mensagem == REQUISICAO_INVALIDA_PADRAO
  {
    var s := REQUISICAO_INVALIDA_PADRAO;
    forall i | 0 <= i <= |s| - |TRECHO_NAO_ENCONTRADO|
      ensures !OccursAt(s, TRECHO_NAO_ENCONTRADO, i)
    {
      assert s[i] != 'n';
      assert s[i..i + |TRECHO_NAO_ENCONTRADO|][0] == s[i];
    }
  }

  /** Any message holding "não encontrado" is answered 404. */
  lemma Vira404(m: string, path: string, agora: Instante, mdc: Option<string>)
    requires Contains(m, TRECHO_NAO_ENCONTRADO)
    ensures Tratar(ArgumentoIlegal(Some(m)), path, agora, mdc).status == 404
  {
  }
}
