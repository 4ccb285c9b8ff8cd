/**
 * The marketplace's entities that the core reads as values: clients,
 * providers, their addresses and weekly availability, and the enumerations
 * shared by the booking and payment flows. Money is a count of cents (every
 * monetary column has scale 2).
 */
module Dominio {
  import opened Wrappers
  import opened Tempo

  type Centavos = int

  /** A latitude or longitude; the core only stores and copies them. */
  type Coordenada = real

  datatype StatusAgendamento = PENDENTE | ACEITO | CONFIRMADO | REALIZADO | CANCELADO | RECUSADO

  datatype FormaPagamento = ONLINE | DINHEIRO

  datatype CategoriaAtuacao =
    | ELETRICISTA | ENCANADOR | PINTOR | PEDREIRO | MARCENEIRO | AR_CONDICIONADO
    | JARDINAGEM | LIMPEZA | DEDETIZACAO | SERRALHERIA | VIDRACEIRO | GESSO
    | PISO | REFORMAS_GERAIS | OUTROS

  /** The embedded address of a client, a provider or a booking. */
  datatype Endereco = Endereco(
    logradouro: Option<string>,
    bairro: Option<string>,
    cep: Option<string>,
    numero: Option<string>,
    complemento: Option<string>,
    cidade: Option<string>,
    uf: Option<string>,
    latitude: Option<Coordenada>,
    longitude: Option<Coordenada>)

  /** A non-null new value replaces the current one; null keeps it. */
  function Mesclar<T>(atual: Option<T>, novo: Option<T>): (r: Option<T>)
    ensures novo.Some? ==> r == novo
    ensures novo.None? ==> r == atual
  {
    if novo.Some? then novo else atual
  }

  /**
   * `Endereco.atualizarInformacoes`: every field the update carries replaces
   * the stored one, every null field of the update leaves it as it was.
   */
  function AtualizarEndereco(atual: Endereco, dados: Endereco): Endereco
  {
    Endereco(Mesclar(atual.logradouro, dados.logradouro), Mesclar(atual.bairro, dados.bairro),
             Mesclar(atual.cep, dados.cep), Mesclar(atual.numero, dados.numero),
             Mesclar(atual.complemento, dados.complemento), Mesclar(atual.cidade, dados.cidade),
             Mesclar(atual.uf, dados.uf), Mesclar(atual.latitude, dados.latitude),
             Mesclar(atual.longitude, dados.longitude))
  }

  /** Applying the same address update twice is applying it once. */
  lemma AtualizarEnderecoIdempotente(atual: Endereco, dados: Endereco)
    ensures AtualizarEndereco(AtualizarEndereco(atual, dados), dados) == AtualizarEndereco(atual, dados)
  {
  }

  /** An update whose fields are all present replaces the address outright. */
  lemma AtualizarEnderecoCompleto(atual: Endereco, dados: Endereco)
    requires dados.logradouro.Some? && dados.bairro.Some? && dados.cep.Some? && dados.numero.Some?
    requires dados.complemento.Some? && dados.cidade.Some? && dados.uf.Some?
    requires dados.latitude.Some? && dados.longitude.Some?
    ensures AtualizarEndereco(atual, dados) == dados
  {
  }

  datatype Cliente = Cliente(
    id: int,
    keycloakId: string,
    cpf: Option<string>,
    nome: Option<string>,
    email: Option<string>,
    telefone: Option<string>,
    ativo: Option<bool>,
    avatarUrl: Option<string>,
    endereco: Option<Endereco>)

  datatype Prestador = Prestador(
    id: int,
    keycloakId: string,
    nomeFantasia: Option<string>,
    cnpj: Option<string>,
    categoria: Option<CategoriaAtuacao>,
    email: Option<string>,
    telefone: Option<string>,
    ativo: Option<bool>,
    avatarUrl: Option<string>,
    valorServico: Option<Centavos>,
    endereco: Option<Endereco>)

  /** A recurring weekly slot: `diaSemana` 1 (Monday) .. 7 (Sunday), times as seconds of the day. */
  datatype Disponibilidade = Disponibilidade(prestadorId: int, diaSemana: int, horaInicio: int, horaFim: int)

  /** The first position of `s` whose element satisfies `p`, as a repository finder returns the row. */
  function IndiceDe<T>(s: seq<T>, p: T -> bool): (r: Option<nat>)
    ensures r.Some? ==> r.value < |s| && p(s[r.value])
    ensures r.Some? ==> forall j :: 0 <= j < r.value ==> !p(s[j])
    ensures r.None? ==> forall j :: 0 <= j < |s| ==> !p(s[j])
  {
    if s == [] then None
    else if p(s[0]) then Some(0)
    else match IndiceDe(s[1..], p)
      case None => None
      case Some(i) => Some(i + 1)
  }

  /** `findByKeycloakId` over the client table. */
  function ClientePorKeycloak(clientes: seq<Cliente>, keycloakId: string): (r: Option<Cliente>)
    ensures r.Some? ==> r.value in clientes && r.value.keycloakId == keycloakId
    ensures r.None? ==> forall c :: c in clientes ==> c.keycloakId != keycloakId
  {
    match IndiceDe(clientes, (c: Cliente) => c.keycloakId == keycloakId)
    case None => None
    case Some(i) => Some(clientes[i])
  }

  /** `findByKeycloakId` over the provider table. */
  function PrestadorPorKeycloak(prestadores: seq<Prestador>, keycloakId: string): (r: Option<Prestador>)
    ensures r.Some? ==> r.value in prestadores && r.value.keycloakId == keycloakId
    ensures r.None? ==> forall p :: p in prestadores ==> p.keycloakId != keycloakId
  {
    match IndiceDe(prestadores, (p: Prestador) => p.keycloakId == keycloakId)
    case None => None
    case Some(i) => Some(prestadores[i])
  }

  /** `findById` over the provider table. */
  function PrestadorPorId(prestadores: seq<Prestador>, id: int): (r: Option<Prestador>)
    ensures r.Some? ==> r.value in prestadores && r.value.id == id
    ensures r.None? ==> forall p :: p in prestadores ==> p.id != id
  {
    match IndiceDe(prestadores, (p: Prestador) => p.id == id)
    case None => None
    case Some(i) => Some(prestadores[i])
  }

  /** The unique indexes on the primary key and on `keycloak_id` of both tables. */
  predicate ClientesUnicos(clientes: seq<Cliente>)
  {
    forall i, j :: 0 <= i < j < |clientes| ==>
      clientes[i].id != clientes[j].id && clientes[i].keycloakId != clientes[j].keycloakId
  }

  predicate PrestadoresUnicos(prestadores: seq<Prestador>)
  {
    forall i, j :: 0 <= i < j < |prestadores| ==>
      prestadores[i].id != prestadores[j].id && prestadores[i].keycloakId != prestadores[j].keycloakId
  }

  /** The client table, with the identity counter that numbers new rows. */
  class ClienteRepository {
    var clientes: seq<Cliente>
    var proximoId: int

    ghost predicate Valid()
      reads this
    {
      ClientesUnicos(clientes) && forall c :: c in clientes ==> c.id < proximoId
    }

    constructor ()
      ensures Valid() && clientes == []
    {
      clientes := [];
      proximoId := 1;
    }
  }

  /** The provider table, with the identity counter that numbers new rows. */
  class PrestadorRepository {
    var prestadores: seq<Prestador>
    var proximoId: int

    ghost predicate Valid()
      reads this
    {
      PrestadoresUnicos(prestadores) && forall p :: p in prestadores ==> p.id < proximoId
    }

    constructor ()
      ensures Valid() && prestadores == []
    {
      prestadores := [];
      proximoId := 1;
    }
  }

  /** The weekly availability table, kept as each provider's sequence of slots. */
  class DisponibilidadeRepository {
    var slots: map<int, seq<Disponibilidade>>

    constructor ()
      ensures slots == map[]
    {
      slots := map[];
    }

    /** `findByPrestadorIdAndDiaSemana…`: the provider's slots on one weekday. */
    function DoDia(prestadorId: int, diaSemana: int): (r: seq<Disponibilidade>)
      reads this
      ensures forall d :: d in r <==> prestadorId in slots && d in slots[prestadorId] && d.diaSemana == diaSemana
    {
      if prestadorId in slots then Filtrar(slots[prestadorId], diaSemana) else []
    }
  }

  function Filtrar(s: seq<Disponibilidade>, diaSemana: int): (r: seq<Disponibilidade>)
    ensures forall d :: d in r <==> d in s && d.diaSemana == diaSemana
  {
    if s == [] then []
    else (if s[0].diaSemana == diaSemana then [s[0]] else []) + Filtrar(s[1..], diaSemana)
  }
}
