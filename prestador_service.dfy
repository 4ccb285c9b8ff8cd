/**
 * The provider account service: get-or-create linking, the lookup the
 * provider-facing services start with, partial profile updates, the
 * replace-all weekly availability and the monthly dashboard.
 */
module PrestadorServico {
  import opened Wrappers
  import opened Tempo
  import opened Texto
  import opened Dominio
  import opened AgendamentoEntidade

  const PRESTADOR_NAO_ENCONTRADO: string := "Prestador não encontrado para o usuário logado."

  /** The sign-up request body. */
  datatype DadosCadastroPrestador = DadosCadastroPrestador(
    nomeFantasia: Option<string>,
    email: Option<string>,
    telefone: Option<string>,
    cnpj: Option<string>,
    categoria: Option<CategoriaAtuacao>,
    valorServico: Option<Centavos>,
    endereco: Option<Endereco>)

  /** The profile update body; every field is optional. */
  datatype DadosAtualizacaoPrestador = DadosAtualizacaoPrestador(
    nomeFantasia: Option<string>,
    email: Option<string>,
    telefone: Option<string>,
    categoria: Option<CategoriaAtuacao>,
    valorServico: Option<Centavos>,
    endereco: Option<Endereco>)

  /** One weekly slot as sent: weekday 1..7 and two times of day in seconds. */
  datatype DadosDisponibilidade = DadosDisponibilidade(diaSemana: int, horaInicio: int, horaFim: int)

  datatype DashboardPrestador = DashboardPrestador(quantidadeTrabalhosMes: int, ganhoBrutoMes: Centavos, lucroLiquidoMes: Centavos)

  /** The row a new provider gets: the form's e-mail wins over the token's (the opposite of clients), and it starts active. */
  function NovoPrestador(id: int, keycloakId: string, email: Option<string>, dados: DadosCadastroPrestador): (p: Prestador)
    ensures p.id == id && p.keycloakId == keycloakId && p.ativo == Some(true)
    ensures dados.email.Some? ==> p.email == dados.email
    ensures dados.email.None? ==> p.email == email
    ensures p.nomeFantasia == dados.nomeFantasia && p.cnpj == dados.cnpj && p.categoria == dados.categoria
    ensures p.valorServico == dados.valorServico && p.telefone == dados.telefone && p.endereco == dados.endereco
    ensures p.avatarUrl.None?
  {
    Prestador(id, keycloakId, dados.nomeFantasia, dados.cnpj, dados.categoria, if dados.email.Some? then dados.email else email,
              dados.telefone, Some(true), None, dados.valorServico, dados.endereco)
  }

  /**
   * `atualizar` on one row: a non-blank trade name and the non-null e-mail,
   * phone, category and price are applied, a given address is merged or set.
   */
  function AtualizarPrestador(p: Prestador, dados: DadosAtualizacaoPrestador): (r: Prestador)
    ensures r.id == p.id && r.keycloakId == p.keycloakId && r.cnpj == p.cnpj && r.ativo == p.ativo && r.avatarUrl == p.avatarUrl
    ensures r.nomeFantasia == (if HasText(dados.nomeFantasia) then dados.nomeFantasia else p.nomeFantasia)
    ensures r.email == Mesclar(p.email, dados.email) && r.telefone == Mesclar(p.telefone, dados.telefone)
    ensures r.categoria == Mesclar(p.categoria, dados.categoria) && r.valorServico == Mesclar(p.valorServico, dados.valorServico)
    ensures dados.endereco.None? ==> r.endereco == p.endereco
    ensures dados.endereco.Some? && p.endereco.Some? ==> r.endereco == Some(AtualizarEndereco(p.endereco.value, dados.endereco.value))
    ensures dados.endereco.Some? && p.endereco.None? ==> r.endereco == dados.endereco
  {
    var nome := if dados.nomeFantasia.Some? && !IsBlank(dados.nomeFantasia.value) then dados.nomeFantasia else p.nomeFantasia;
    var endereco :=
      if dados.endereco.Some? && p.endereco.Some? then Some(AtualizarEndereco(p.endereco.value, dados.endereco.value))
      else if dados.endereco.Some? then dados.endereco
      else p.endereco;
    p.(nomeFantasia := nome,
       email := if dados.email.Some? then dados.email else p.email,
       telefone := if dados.telefone.Some? then dados.telefone else p.telefone,
       categoria := if dados.categoria.Some? then dados.categoria else p.categoria,
       valorServico := if dados.valorServico.Some? then dados.valorServico else p.valorServico,
       endereco := endereco)
  }

  /** Sending the same profile update twice leaves the provider as one update did. */
  lemma AtualizarPrestadorIdempotente(p: Prestador, dados: DadosAtualizacaoPrestador)
    ensures AtualizarPrestador(AtualizarPrestador(p, dados), dados) == AtualizarPrestador(p, dados)
  {
    if dados.endereco.Some? && p.endereco.Some? {
      AtualizarEnderecoIdempotente(p.endereco.value, dados.endereco.value);
    }
  }

  /** The slots `salvarDisponibilidade` stores: one per item, in order, owned by the provider. */
  function NovosSlots(prestadorId: int, dados: seq<DadosDisponibilidade>): (r: seq<Disponibilidade>)
    ensures |r| == |dados|
    ensures forall i :: 0 <= i < |dados| ==>
      r[i] == Disponibilidade(prestadorId, dados[i].diaSemana, dados[i].horaInicio, dados[i].horaFim)
  {
    if dados == [] then []
    else [Disponibilidade(prestadorId, dados[0].diaSemana, dados[0].horaInicio, dados[0].horaFim)]
         + NovosSlots(prestadorId, dados[1..])
  }

  /** The sum of the non-null prices of a list of bookings (`reduce(ZERO, add)` after dropping nulls). */
  function SomaValores(s: seq<Agendamento>): Centavos
  {
    if s == [] then 0 else s[0].valorServico.GetOr(0) + SomaValores(s[1..])
  }

  lemma {:induction false} SomaValoresConcat(a: seq<Agendamento>, b: seq<Agendamento>)
    ensures SomaValores(a + b) == SomaValores(a) + SomaValores(b)
  {
    if a == [] {
      assert a + b == b;
    } else {
      assert (a + b)[1..] == a[1..] + b;
      SomaValoresConcat(a[1..], b);
    }
  }

  /** Removing from two equal multisets of elements one occurrence of the same element leaves them equal. */
  lemma SemUmaOcorrencia<T>(a: seq<T>, b: seq<T>, i: int)
    requires a != [] && multiset(a) == multiset(b)
    requires 0 <= i < |b| && b[i] == a[0]
    ensures multiset(a[1..]) == multiset(b[..i] + b[i+1..])
  {
    assert a == [a[0]] + a[1..];
    assert b == b[..i] + [b[i]] + b[i+1..];
    assert multiset(a) == multiset{a[0]} + multiset(a[1..]);
    assert multiset(b) == multiset(b[..i]) + multiset{b[i]} + multiset(b[i+1..]);
    assert multiset(b[..i] + b[i+1..]) == multiset(b[..i]) + multiset(b[i+1..]);
    assert multiset(a[1..]) == multiset(a) - multiset{a[0]};
    assert multiset(b[..i] + b[i+1..]) == multiset(b) - multiset{b[i]};
  }

  /** The total is one booking's price plus the total of the others. */
  lemma SomaSemUm(b: seq<Agendamento>, i: int)
    requires 0 <= i < |b|
    ensures SomaValores(b) == b[i].valorServico.GetOr(0) + SomaValores(b[..i] + b[i+1..])
  {
    assert b == b[..i] + [b[i]] + b[i+1..];
    SomaValoresConcat(b[..i] + [b[i]], b[i+1..]);
    SomaValoresConcat(b[..i], [b[i]]);
    SomaValoresConcat(b[..i], b[i+1..]);
    assert SomaValores([b[i]]) == b[i].valorServico.GetOr(0);
  }

  /** The total does not depend on the order the query returns the bookings in. */
  lemma {:induction false} SomaValoresPermutacao(a: seq<Agendamento>, b: seq<Agendamento>)
    requires multiset(a) == multiset(b)
    ensures SomaValores(a) == SomaValores(b)
    decreases |a|
  {
    if a == [] {
      assert |b| == |multiset(b)| == 0;
    } else {
      assert a[0] in multiset(b);
      var i :| 0 <= i < |b| && b[i] == a[0];
      SemUmaOcorrencia(a, b, i);
      SomaValoresPermutacao(a[1..], b[..i] + b[i+1..]);
      SomaSemUm(b, i);
    }
  }

  /** The first and last instants of the month of `hoje`: its first day at 00:00, and one second before the next month's. */
  function JanelaDoMes(hoje: Data): (Instante, Instante)
  {
    (InicioDoDia(InicioDoMes(hoje)), InicioDoDia(InicioDoMesSeguinte(hoje)) - 1)
  }

  /** The dashboard figures over the month's finished bookings; the net figure is the gross one. */
  function Dashboard(realizados: seq<Agendamento>): (r: DashboardPrestador)
    ensures r.quantidadeTrabalhosMes == |realizados|
    ensures r.lucroLiquidoMes == r.ganhoBrutoMes == SomaValores(realizados)
  {
    var bruto := SomaValores(realizados);
    DashboardPrestador(|realizados|, bruto, bruto)
  }

  /** Prices are never negative, so neither is the dashboard's total. */
  lemma {:induction false} SomaValoresNaoNegativa(s: seq<Agendamento>)
    requires forall a :: a in s ==> a.valorServico.GetOr(0) >= 0
    ensures SomaValores(s) >= 0
  {
    if s != [] {
      assert s[0] in s;
      assert forall a :: a in s[1..] ==> a in s;
      SomaValoresNaoNegativa(s[1..]);
    }
  }

  class PrestadorService {
    const repositorio: PrestadorRepository
    const agendamentos: AgendamentoRepository
    const disponibilidades: DisponibilidadeRepository

    constructor (repositorio: PrestadorRepository, agendamentos: AgendamentoRepository, disponibilidades: DisponibilidadeRepository)
      ensures this.repositorio == repositorio && this.agendamentos == agendamentos && this.disponibilidades == disponibilidades
    {
      this.repositorio := repositorio;
      this.agendamentos := agendamentos;
      this.disponibilidades := disponibilidades;
    }

    /** `buscarPorKeycloakId`. */
    function BuscarPorKeycloakId(keycloakId: string): (r: Result<Prestador>)
      reads this, repositorio
      ensures r.Success? ==> r.value in repositorio.prestadores && r.value.keycloakId == keycloakId
      ensures r.Failure? <==> forall p :: p in repositorio.prestadores ==> p.keycloakId != keycloakId
      ensures r.Failure? ==> r.error == PRESTADOR_NAO_ENCONTRADO
    {
      match PrestadorPorKeycloak(repositorio.prestadores, keycloakId)
      case None => Failure(PRESTADOR_NAO_ENCONTRADO)
      case Some(p) => Success(p)
    }

    /** `vincular`: the linked provider if there is one, untouched; otherwise a new row under the next id. */
    method Vincular(keycloakId: string, email: Option<string>, dados: DadosCadastroPrestador) returns (p: Prestador)
      requires repositorio.Valid()
      modifies repositorio
      ensures repositorio.Valid()
      ensures old(PrestadorPorKeycloak(repositorio.prestadores, keycloakId)).Some? ==>
        p == old(PrestadorPorKeycloak(repositorio.prestadores, keycloakId)).value
        && repositorio.prestadores == old(repositorio.prestadores) && repositorio.proximoId == old(repositorio.proximoId)
      ensures old(PrestadorPorKeycloak(repositorio.prestadores, keycloakId)).None? ==>
        p == NovoPrestador(old(repositorio.proximoId), keycloakId, email, dados)
        && repositorio.prestadores == old(repositorio.prestadores) + [p]
        && repositorio.proximoId == old(repositorio.proximoId) + 1
    {
      var existente := PrestadorPorKeycloak(repositorio.prestadores, keycloakId);
      if existente.Some? {
        return existente.value;
      }
      p := NovoPrestador(repositorio.proximoId, keycloakId, email, dados);
      repositorio.prestadores := repositorio.prestadores + [p];
      repositorio.proximoId := repositorio.proximoId + 1;
    }

    /** `atualizar`: the caller's row is replaced by its update, in place; no other row moves. */
    method Atualizar(keycloakId: string, dados: DadosAtualizacaoPrestador) returns (r: Result<Prestador>)
      requires repositorio.Valid()
      modifies repositorio
      ensures repositorio.Valid() && repositorio.proximoId == old(repositorio.proximoId)
      ensures old(BuscarPorKeycloakId(keycloakId)).Failure? ==>
        r == Failure(PRESTADOR_NAO_ENCONTRADO) && repositorio.prestadores == old(repositorio.prestadores)
      ensures old(BuscarPorKeycloakId(keycloakId)).Success? ==>
        r == Success(AtualizarPrestador(old(BuscarPorKeycloakId(keycloakId)).value, dados))
        && repositorio.prestadores
           == old(repositorio.prestadores)[IndiceDoPrestador(old(repositorio.prestadores), keycloakId) := r.value]
    {
      var i := IndiceDe(repositorio.prestadores, (p: Prestador) => p.keycloakId == keycloakId);
      if i.None? {
        return Failure(PRESTADOR_NAO_ENCONTRADO);
      }
      var novo := AtualizarPrestador(repositorio.prestadores[i.value], dados);
      repositorio.prestadores := repositorio.prestadores[i.value := novo];
      return Success(novo);
    }

    /**
     * `salvarDisponibilidade`: the provider's slots are all deleted, then the
     * given ones (none for a null or empty list) are stored in order.
     */
    method SalvarDisponibilidade(keycloakId: string, dados: Option<seq<DadosDisponibilidade>>)
      returns (r: Result<seq<Disponibilidade>>)
      requires dados.Some? ==> forall d :: d in dados.value ==> 1 <= d.diaSemana <= 7
      modifies disponibilidades
      ensures old(BuscarPorKeycloakId(keycloakId)).Failure? ==>
        r == Failure(PRESTADOR_NAO_ENCONTRADO) && disponibilidades.slots == old(disponibilidades.slots)
      ensures old(BuscarPorKeycloakId(keycloakId)).Success? ==>
        var id := old(BuscarPorKeycloakId(keycloakId)).value.id;
        r.Success?
        && r.value == (if dados.None? then [] else NovosSlots(id, dados.value))
        && disponibilidades.slots == old(disponibilidades.slots)[id := r.value]
    {
      var p := BuscarPorKeycloakId(keycloakId);
      if p.Failure? {
        return Failure(p.error);
      }
      var id := p.value.id;
      disponibilidades.slots := disponibilidades.slots[id := []];
      if dados.None? || dados.value == [] {
        return Success([]);
      }
      var lista := NovosSlots(id, dados.value);
      disponibilidades.slots := disponibilidades.slots[id := lista];
      return Success(lista);
    }

    /**
     * `dashboard`: `realizados` is what the month query returns: the
     * provider's REALIZADO bookings between the window's two instants, both
     * included, each once, in whatever order the database chooses.
     */
    method DashboardDoMes(keycloakId: string, hoje: Data, realizados: seq<Agendamento>) returns (d: DashboardPrestador)
      requires forall i, j :: 0 <= i < j < |realizados| ==> realizados[i] != realizados[j]
      requires forall a :: a in realizados <==> a in agendamentos.linhas.Values && RealizadoNaJanela(a, keycloakId, JanelaDoMes(hoje))
      ensures d == Dashboard(realizados)
      ensures forall outra: seq<Agendamento> :: multiset(outra) == multiset(realizados) ==> d == Dashboard(outra)
    {
      d := Dashboard(realizados);
      forall outra: seq<Agendamento> | multiset(outra) == multiset(realizados)
        ensures d == Dashboard(outra)
      {
        SomaValoresPermutacao(realizados, outra);
        assert |outra| == |multiset(outra)|;
      }
    }
  }

  /** The month query's filter: this provider's, REALIZADO, within the window. */
  predicate RealizadoNaJanela(a: Agendamento, keycloakId: string, janela: (Instante, Instante))
    reads a
  {
    a.prestador.Some? && a.prestador.value.keycloakId == keycloakId && a.status == REALIZADO
    && janela.0 <= a.dataHora <= janela.1
  }

  /** The position of the caller's row in a table where it exists. */
  function IndiceDoPrestador(prestadores: seq<Prestador>, keycloakId: string): (i: nat)
    requires exists p :: p in prestadores && p.keycloakId == keycloakId
    ensures i < |prestadores| && prestadores[i].keycloakId == keycloakId
    ensures Some(prestadores[i]) == PrestadorPorKeycloak(prestadores, keycloakId)
  {
    IndiceDe(prestadores, (p: Prestador) => p.keycloakId == keycloakId).value
  }
}
