/**
 * The client account service: linking a Keycloak user to a client row
 * (get-or-create), the lookup every client-facing call starts with, and the
 * partial profile updates.
 */
module ClienteServico {
  import opened Wrappers
  import opened Texto
  import opened Dominio

  const CLIENTE_NAO_ENCONTRADO: string := "Cliente não encontrado para o usuário logado."

  /** The sign-up request body (its validation annotations are not re-checked here). */
  datatype DadosCadastroCliente = DadosCadastroCliente(
    nome: Option<string>,
    email: Option<string>,
    telefone: Option<string>,
    cpf: Option<string>,
    endereco: Option<Endereco>)

  /** The profile update body; every field is optional. */
  datatype DadosAtualizacaoCliente = DadosAtualizacaoCliente(
    nome: Option<string>,
    telefone: Option<string>,
    endereco: Option<Endereco>)

  /** The row a new client gets: the token's e-mail wins over the form's, and the account starts active. */
  function NovoCliente(id: int, keycloakId: string, email: Option<string>, dados: DadosCadastroCliente): (c: Cliente)
    ensures c.id == id && c.keycloakId == keycloakId && c.ativo == Some(true)
    ensures email.Some? ==> c.email == email
    ensures email.None? ==> c.email == dados.email
    ensures c.nome == dados.nome && c.telefone == dados.telefone && c.cpf == dados.cpf && c.endereco == dados.endereco
    ensures c.avatarUrl.None?
  {
    Cliente(id, keycloakId, dados.cpf, dados.nome, if email.Some? then email else dados.email,
            dados.telefone, Some(true), None, dados.endereco)
  }

  /** `atualizar` on one row: a non-blank name, a non-null phone and a given address are applied, nothing else. */
  function AtualizarCliente(c: Cliente, dados: DadosAtualizacaoCliente): (r: Cliente)
    ensures r.id == c.id && r.keycloakId == c.keycloakId && r.cpf == c.cpf && r.email == c.email
    ensures r.ativo == c.ativo && r.avatarUrl == c.avatarUrl
    ensures r.nome == (if HasText(dados.nome) then dados.nome else c.nome)
    ensures r.telefone == Mesclar(c.telefone, dados.telefone)
    ensures dados.endereco.None? ==> r.endereco == c.endereco
    ensures dados.endereco.Some? && c.endereco.Some? ==> r.endereco == Some(AtualizarEndereco(c.endereco.value, dados.endereco.value))
    ensures dados.endereco.Some? && c.endereco.None? ==> r.endereco == dados.endereco
  {
    var nome := if dados.nome.Some? && !IsBlank(dados.nome.value) then dados.nome else c.nome;
    var telefone := if dados.telefone.Some? then dados.telefone else c.telefone;
    var endereco :=
      if dados.endereco.Some? && c.endereco.Some? then Some(AtualizarEndereco(c.endereco.value, dados.endereco.value))
      else if dados.endereco.Some? then dados.endereco
      else c.endereco;
    c.(nome := nome, telefone := telefone, endereco := endereco)
  }

  /** Sending the same profile update twice leaves the client as one update did. */
  lemma AtualizarClienteIdempotente(c: Cliente, dados: DadosAtualizacaoCliente)
    ensures AtualizarCliente(AtualizarCliente(c, dados), dados) == AtualizarCliente(c, dados)
  {
    if dados.endereco.Some? && c.endereco.Some? {
      AtualizarEnderecoIdempotente(c.endereco.value, dados.endereco.value);
    }
  }

  class ClienteService {
    const repositorio: ClienteRepository

    constructor (repositorio: ClienteRepository)
      ensures this.repositorio == repositorio
    {
      this.repositorio := repositorio;
    }

    /** `buscarPorKeycloakId`. */
    function BuscarPorKeycloakId(keycloakId: string): (r: Result<Cliente>)
      reads this, repositorio
      ensures r.Success? ==> r.value in repositorio.clientes && r.value.keycloakId == keycloakId
      ensures r.Failure? <==> forall c :: c in repositorio.clientes ==> c.keycloakId != keycloakId
      ensures r.Failure? ==> r.error == CLIENTE_NAO_ENCONTRADO
    {
      match ClientePorKeycloak(repositorio.clientes, keycloakId)
      case None => Failure(CLIENTE_NAO_ENCONTRADO)
      case Some(c) => Success(c)
    }

    /** `vincular`: the linked client if there is one, untouched; otherwise a new row under the next id. */
    method Vincular(keycloakId: string, email: Option<string>, dados: DadosCadastroCliente) returns (c: Cliente)
      requires repositorio.Valid()
      modifies repositorio
      ensures repositorio.Valid()
      ensures old(ClientePorKeycloak(repositorio.clientes, keycloakId)).Some? ==>
        c == old(ClientePorKeycloak(repositorio.clientes, keycloakId)).value
        && repositorio.clientes == old(repositorio.clientes) && repositorio.proximoId == old(repositorio.proximoId)
      ensures old(ClientePorKeycloak(repositorio.clientes, keycloakId)).None? ==>
        c == NovoCliente(old(repositorio.proximoId), keycloakId, email, dados)
        && repositorio.clientes == old(repositorio.clientes) + [c]
        && repositorio.proximoId == old(repositorio.proximoId) + 1
    {
      var existente := ClientePorKeycloak(repositorio.clientes, keycloakId);
      if existente.Some? {
        return existente.value;
      }
      c := NovoCliente(repositorio.proximoId, keycloakId, email, dados);
      repositorio.clientes := repositorio.clientes + [c];
      repositorio.proximoId := repositorio.proximoId + 1;
    }

    /** `atualizar`: the caller's row is replaced by its update, in place; no other row moves. */
    method Atualizar(keycloakId: string, dados: DadosAtualizacaoCliente) returns (r: Result<Cliente>)
      requires repositorio.Valid()
      modifies repositorio
      ensures repositorio.Valid() && repositorio.proximoId == old(repositorio.proximoId)
      ensures old(BuscarPorKeycloakId(keycloakId)).Failure? ==>
        r == Failure(CLIENTE_NAO_ENCONTRADO) && repositorio.clientes == old(repositorio.clientes)
      ensures old(BuscarPorKeycloakId(keycloakId)).Success? ==>
        r == Success(AtualizarCliente(old(BuscarPorKeycloakId(keycloakId)).value, dados))
        && repositorio.clientes == old(repositorio.clientes)[IndiceDoCliente(old(repositorio.clientes), keycloakId) := r.value]
    {
      r := Editar(keycloakId, (c: Cliente) => AtualizarCliente(c, dados));
    }

    /** `atualizarAvatar`: only the avatar URL of the caller's row changes. */
    method AtualizarAvatar(keycloakId: string, avatarUrl: Option<string>) returns (r: Result<Cliente>)
      requires repositorio.Valid()
      modifies repositorio
      ensures repositorio.Valid() && repositorio.proximoId == old(repositorio.proximoId)
      ensures old(BuscarPorKeycloakId(keycloakId)).Failure? ==>
        r == Failure(CLIENTE_NAO_ENCONTRADO) && repositorio.clientes == old(repositorio.clientes)
      ensures old(BuscarPorKeycloakId(keycloakId)).Success? ==>
        r == Success(old(BuscarPorKeycloakId(keycloakId)).value.(avatarUrl := avatarUrl))
        && repositorio.clientes == old(repositorio.clientes)[IndiceDoCliente(old(repositorio.clientes), keycloakId) := r.value]
    {
      r := Editar(keycloakId, (c: Cliente) => c.(avatarUrl := avatarUrl));
    }

    /** Load the caller's row, apply `f`, save it back in its place. */
    method Editar(keycloakId: string, f: Cliente -> Cliente) returns (r: Result<Cliente>)
      requires repositorio.Valid()
      requires forall c :: f(c).id == c.id && f(c).keycloakId == c.keycloakId
      modifies repositorio
      ensures repositorio.Valid() && repositorio.proximoId == old(repositorio.proximoId)
      ensures old(BuscarPorKeycloakId(keycloakId)).Failure? ==>
        r == Failure(CLIENTE_NAO_ENCONTRADO) && repositorio.clientes == old(repositorio.clientes)
      ensures old(BuscarPorKeycloakId(keycloakId)).Success? ==>
        r == Success(f(old(BuscarPorKeycloakId(keycloakId)).value))
        && repositorio.clientes == old(repositorio.clientes)[IndiceDoCliente(old(repositorio.clientes), keycloakId) := r.value]
    {
      var i := IndiceDe(repositorio.clientes, (c: Cliente) => c.keycloakId == keycloakId);
      if i.None? {
        return Failure(CLIENTE_NAO_ENCONTRADO);
      }
      var novo := f(repositorio.clientes[i.value]);
      repositorio.clientes := repositorio.clientes[i.value := novo];
      return Success(novo);
    }
  }

  /** The position of the caller's row in a table where it exists. */
  function IndiceDoCliente(clientes: seq<Cliente>, keycloakId: string): (i: nat)
    requires exists c :: c in clientes && c.keycloakId == keycloakId
    ensures i < |clientes| && clientes[i].keycloakId == keycloakId
    ensures Some(clientes[i]) == ClientePorKeycloak(clientes, keycloakId)
  {
    IndiceDe(clientes, (c: Cliente) => c.keycloakId == keycloakId).value
  }
}
