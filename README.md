# ajeitai core in Dafny

ajeitai is a marketplace where clients book home services from providers
("prestadores"). This project models its core. It covers the booking ("agendamento")
lifecycle and the money that follows it, the request guards around that flow,
and a few web-client helpers. Each part is proved against its own contract.

- **Booking state machine** (`AgendamentoEntidade`, `AgendamentoServico`,
  `AgendamentoControle`). `criar` checks the following, in order:
  - the 30-minute lead time;
  - the two parties' addresses and city;
  - a half-open weekly availability slot;
  - the exact-time conflict.

  Then `aceitar`, `recusar`, `cancelar`, the two confirmation paths, check-in and
  check-out move the status along guarded edges. The controller maps the status
  filter and decides which bookings may still be reviewed.
- **Payment and settlement.**
  - `PagamentoEntidade` and `PagamentoServico`: get-or-create and monotone
    confirmation.
  - `CarteiraServico`: the 7% commission rounded half-up to cents. The credit
    happens once per payment, and a ledger that stays reconciled with the
    balances records it.
  - `SaqueServico`: the withdrawal cooldown. A withdrawal sweeps the whole
    balance.
  - `AssinaturaServico`: provider subscriptions.
  - `WebhookAbacatePay`: the payment-gateway callback routes `ag-<id>` and
    `sub-<id>` references back to what created them.
  - `AbacatePay`: shapes the billing request.
- **Data operations.**
  - Providers and clients: `PrestadorServico`, `ClienteServico`, `Dominio`.
  - The catalogue and its listing: `Catalogo`, `ListagemPrestadores`.
  - Reviews: `AvaliacaoServico`.
  - Portfolio: `Portfolio`.
  - Push tokens: `Notificacao`.
- **Tenant context and request guards.**
  - `ContextoUsuario`: the caller's role.
  - `RlsSessao`: the PostgreSQL row-level-security session variables.
  - `FiltroAssinatura`: the subscription gate.
  - `Excecoes`: the error classification.
  - `Idempotencia`: the idempotency-key state machine.
  - `LimiteRequisicoes`: the rate limiter.
- **Storage** (`Armazenamento`, `ArmazenamentoLocal`). Key construction, and
  containment of a key in its bucket's base directory after normalisation.
- **Web client** (`Formatacao`, `KeycloakCliente`, `Push`). Address
  formatting, roles and profile from the Keycloak token, and the VAPID key
  conversion with the notification-permission flow.

Support modules model the Java library behaviour the code relies on:
- `Wrappers`: `Option` and `Result`.
- `Numeros`: `long` parsing and printing, `int` narrowing, half-up rounding.
- `Texto`: `String` operations.
- `Tempo`: `java.time` values as integers.

The modelling conventions:
- Money is integer cents. Scale-2 `BigDecimal` arithmetic becomes exact
  integer arithmetic with explicit half-up rounding.
- A Java `null` is `Option.None`. An `IllegalArgumentException` (and the
  other exceptions the handler classifies) is a `Result.Failure` carrying the
  source's own message.
- The following are parameters of the operations that use them: the clock
  (`LocalDateTime.now()`), UUIDs, the payment gateway, the billing result,
  `atob`, the push manager and `fetch`.
- Entities whose own methods are part of the core (`Agendamento`,
  `Pagamento`) and every repository and service are classes. Their methods
  change fields in place under `modifies` clauses. The other records are
  datatypes held in those repositories' `map` and `seq` fields.

## Model

| member | source | states |
|---|---|---|
| AbacatePay.PrecoEmCentavos | backend/src/main/java/com/ajeitai/backend/integration/abacatepay/AbacatePayService.java:48-56 | the price charged is never below 100 cents; a missing price or one under 1 BRL is charged 100; a price that fits an `int` is charged as it is |
| AbacatePay.PrecoAcimaDoInt | backend/src/main/java/com/ajeitai/backend/integration/abacatepay/AbacatePayService.java:53 | the `intValue` narrowing wraps: 2^32 + 5000 cents is charged as 5000 |
| AbacatePay.SemBarraFinal | backend/src/main/java/com/ajeitai/backend/integration/abacatepay/AbacatePayService.java:59 | `replaceAll("/$", "")` removes at most one character |
| AbacatePay.SemBarraFinalDeUmaBarra | backend/src/main/java/com/ajeitai/backend/integration/abacatepay/AbacatePayService.java:59 | a base URL ending in '/' loses exactly that '/' |
| AbacatePay.SemBarraFinalSemBarra | backend/src/main/java/com/ajeitai/backend/integration/abacatepay/AbacatePayService.java:59 | a URL ending in neither '/' nor a line terminator is kept unchanged |
| AbacatePay.ReturnUrl | backend/src/main/java/com/ajeitai/backend/integration/abacatepay/AbacatePayService.java:59 | the return URL always ends in "/cliente/agendamentos" |
| AbacatePay.Cupons | backend/src/main/java/com/ajeitai/backend/integration/abacatepay/AbacatePayService.java:77-80 | null exactly when no coupon is configured; otherwise a prefix of the configured codes, all of them up to fifty and exactly fifty beyond |
| AbacatePay.SoDigitos | backend/src/main/java/com/ajeitai/backend/integration/abacatepay/AbacatePayService.java:118 | the result holds only digits, is no longer than the input, and equals an all-digit input; a character is in the result exactly when it is a digit of the input |
| AbacatePay.SoDigitosConcat | backend/src/main/java/com/ajeitai/backend/integration/abacatepay/AbacatePayService.java:118 | the digits of two joined strings are the digits of the first followed by those of the second, so the input's digits keep their order |
| AbacatePay.SoDigitosDeUm | backend/src/main/java/com/ajeitai/backend/integration/abacatepay/AbacatePayService.java:118 | a single character is kept exactly when it is a digit |
| AbacatePay.SoDigitosIdempotente | backend/src/main/java/com/ajeitai/backend/integration/abacatepay/AbacatePayService.java:116-124 | normalising a phone number or CPF twice is normalising it once |
| AbacatePay.Normalizar | backend/src/main/java/com/ajeitai/backend/integration/abacatepay/AbacatePayService.java:116-124 | eleven zeros for null, otherwise the digits of the text; always digits only |
| AbacatePay.RequisicaoCobranca | backend/src/main/java/com/ajeitai/backend/integration/abacatepay/AbacatePayService.java:40-92 | no request without an API key; otherwise one PIX one-time product with external id "ag-<id>", quantity 1 and the clamped price, return and completion URL equal, the customer's name/phone/e-mail/CPF with their defaults, the coupon list, and allowCoupons true or null |
| AbacatePay.CreateBilling | backend/src/main/java/com/ajeitai/backend/integration/abacatepay/AbacatePayService.java:40-114 | a result exactly when enabled, the exchange answered 2xx and body and data are non-null; the result is the data's id and URL |
| AgendamentoEntidade.CriadoEmAposPersistir | backend/src/main/java/com/ajeitai/backend/domain/agendamento/Agendamento.java:106-111 | after `prePersist` the creation time is always set: the existing one is kept, an unset one becomes the clock reading |
| AgendamentoEntidade.CriadoEmIdempotente | backend/src/main/java/com/ajeitai/backend/domain/agendamento/Agendamento.java:106-111 | persisting a second time never moves the creation time |
| AgendamentoEntidade.Agendamento.constructor | backend/src/main/java/com/ajeitai/backend/domain/agendamento/Agendamento.java:19-104 | the builder sets the given fields and leaves every timestamp, position, photo and listing field null |
| AgendamentoEntidade.Agendamento.PrePersist | backend/src/main/java/com/ajeitai/backend/domain/agendamento/Agendamento.java:106-111 | only `criadoEm` may change, as `CriadoEmAposPersistir` says |
| AgendamentoEntidade.Agendamento.Aceitar | backend/src/main/java/com/ajeitai/backend/domain/agendamento/Agendamento.java:113-115 | the status becomes ACEITO and nothing else changes |
| AgendamentoEntidade.Agendamento.Confirmar | backend/src/main/java/com/ajeitai/backend/domain/agendamento/Agendamento.java:117-120 | the status becomes CONFIRMADO and `confirmadoEm` the clock reading; nothing else changes |
| AgendamentoEntidade.Agendamento.Recusar | backend/src/main/java/com/ajeitai/backend/domain/agendamento/Agendamento.java:122-124 | the status becomes RECUSADO and nothing else changes |
| AgendamentoEntidade.Agendamento.Cancelar | backend/src/main/java/com/ajeitai/backend/domain/agendamento/Agendamento.java:126-128 | the status becomes CANCELADO and nothing else changes |
| AgendamentoEntidade.Agendamento.MarcarRealizado | backend/src/main/java/com/ajeitai/backend/domain/agendamento/Agendamento.java:130-132 | the status becomes REALIZADO and nothing else changes |
| AgendamentoEntidade.Agendamento.ClienteId | backend/src/main/java/com/ajeitai/backend/domain/agendamento/Agendamento.java:134-136 | null exactly when there is no client, else the client's id |
| AgendamentoEntidade.Agendamento.PrestadorId | backend/src/main/java/com/ajeitai/backend/domain/agendamento/Agendamento.java:138-140 | null exactly when there is no provider, else the provider's id |
| AgendamentoEntidade.AgendamentosDistintos | backend/src/main/java/com/ajeitai/backend/repository/AgendamentoRepository.java:12 | two ids of the table never name the same booking object |
| AgendamentoControle.PorNome | backend/src/main/java/com/ajeitai/backend/controller/AgendamentoController.java:86-88 | a status is found only when its name equals the value ignoring case, and none is found exactly when no name does |
| AgendamentoControle.MapStatusFromFrontend | backend/src/main/java/com/ajeitai/backend/controller/AgendamentoController.java:77-90 | empty for null or blank; the alias of the lower-cased value when there is one; otherwise the status whose name matches ignoring case, and empty exactly when none matches |
| AgendamentoControle.NomesMinusculos | backend/src/main/java/com/ajeitai/backend/controller/AgendamentoController.java:79 | each status name lower-cased is its lower-case spelling |
| AgendamentoControle.Selecao | backend/src/main/java/com/ajeitai/backend/controller/AgendamentoController.java:78-89 | a non-blank value is looked up by its lower-case form: alias first, then the status names |
| AgendamentoControle.ApelidoDoNome | backend/src/main/java/com/ajeitai/backend/controller/AgendamentoController.java:80-85 | a status's own lower-case name is never the alias of another status |
| AgendamentoControle.NomesDistintos | backend/src/main/java/com/ajeitai/backend/controller/AgendamentoController.java:86-88 | two statuses whose names are equal ignoring case are the same status |
| AgendamentoControle.NomeSelecionaStatus | backend/src/main/java/com/ajeitai/backend/controller/AgendamentoController.java:77-90 | every status's own name selects that status |
| AgendamentoControle.ApelidoIgnoraCaixa | backend/src/main/java/com/ajeitai/backend/controller/AgendamentoController.java:79-83 | "Concluido" selects REALIZADO |
| AgendamentoControle.ValorDesconhecido | backend/src/main/java/com/ajeitai/backend/controller/AgendamentoController.java:86-88 | "todos", neither an alias nor a name, selects nothing |
| AgendamentoControle.AnotacaoDe | backend/src/main/java/com/ajeitai/backend/controller/AgendamentoController.java:58-72 | always a boolean; a review id exactly for a REALIZADO booking with a review, that review's id as text; reviewable exactly when REALIZADO, without a review and strictly within seven days of check-out (or of the booking time) |
| AgendamentoControle.AvaliacaoIdLegivel | backend/src/main/java/com/ajeitai/backend/controller/AgendamentoController.java:65 | the review id the list shows parses back to the review's id |
| AgendamentoControle.ListaEServicoNoPrazo | backend/src/main/java/com/ajeitai/backend/controller/AgendamentoController.java:69 | the list's strict deadline implies the service's; they differ only at exactly seven days |
| AgendamentoControle.AnotacaoConcordaComAvaliar | backend/src/main/java/com/ajeitai/backend/controller/AgendamentoController.java:63-71 | for the caller's own finished booking without a review, the service accepts a review exactly when the list offers it, or at the deadline instant |
| AgendamentoControle.AgendamentoController.AnotarAvaliacoes | backend/src/main/java/com/ajeitai/backend/controller/AgendamentoController.java:57-73 | each listed booking ends with its annotation and no other field changes |
| AgendamentoControle.AgendamentoController.Anotar | backend/src/main/java/com/ajeitai/backend/controller/AgendamentoController.java:58-72 | one booking gets its annotation; no other field changes |
| AgendamentoControle.AgendamentoController.CheckoutComFoto | backend/src/main/java/com/ajeitai/backend/controller/AgendamentoController.java:149-165 | a missing or empty photo is a 400 with nothing changed; otherwise the service's check-out decision: its error with nothing changed, or 204 with the booking in the decided state |
| AgendamentoControle.AgendamentoController.BuscarPagamento | backend/src/main/java/com/ajeitai/backend/controller/AgendamentoController.java:178-188 | fails exactly when the client's booking lookup fails, changing nothing; otherwise the booking's stored payment: one that existed is returned unchanged with the table as it was, and a missing one is created under the next id as `criarPagamento` builds it (initial status for the booking's method, stamped now, gateway link or fallback link) and is the only row added |
| AgendamentoServico.AlgumSlotContem | backend/src/main/java/com/ajeitai/backend/service/AgendamentoService.java:64-67 | true exactly when some slot of the day holds the time of day (start included, end excluded), and never for an empty list |
| AgendamentoServico.AgendamentoService.Validacao | backend/src/main/java/com/ajeitai/backend/service/AgendamentoService.java:41-80 | `criar`'s checks succeed exactly when client and provider exist, the time is at least 30 minutes ahead, both have addresses in the same city ignoring case, the time falls in a slot of that weekday, and no live booking of the provider has that exact time; the pair returned is the one looked up |
| AgendamentoServico.AgendamentoService.Criar | backend/src/main/java/com/ajeitai/backend/service/AgendamentoService.java:41-103 | a failed check returns its error and leaves the table as it was; success stores one new PENDENTE booking under the next id with the client, provider, time, payment form, note, the provider's price, the client's address and the creation time, and changes nothing else |
| AgendamentoServico.AgendamentoService.BuscarPorId | backend/src/main/java/com/ajeitai/backend/service/AgendamentoService.java:118-121 | found exactly when the id is in the table; otherwise "Agendamento não encontrado." |
| AgendamentoServico.AgendamentoService.BuscarPorIdDoCliente | backend/src/main/java/com/ajeitai/backend/service/AgendamentoService.java:123-127 | succeeds exactly when the booking exists and the caller is its client |
| AgendamentoServico.AgendamentoService.Autorizacao | backend/src/main/java/com/ajeitai/backend/service/AgendamentoService.java:250-263 | passes exactly when the caller is the booking's own provider (provider operations) or own client (client operations); an unknown caller gets the not-found message |
| AgendamentoServico.AgendamentoService.Decisao | backend/src/main/java/com/ajeitai/backend/service/AgendamentoService.java:118-263 | the outcome of a transition: not found, else the caller check's error, else the status guard's step |
| AgendamentoServico.AgendamentoService.Aceitar | backend/src/main/java/com/ajeitai/backend/service/AgendamentoService.java:129-149 | the decision's outcome; on success the booking has a payment: one it already had is left as it was, otherwise a new one under the next id whose status is the initial one for the booking's payment method, stamped with the acceptance instant, with no link for cash and, online, the gateway's link and billing id or else the fallback checkout link; on failure no payment is created |
| AgendamentoServico.AgendamentoService.Recusar | backend/src/main/java/com/ajeitai/backend/service/AgendamentoService.java:151-164 | the decision's outcome: an error with nothing changed, or the booking RECUSADO |
| AgendamentoServico.AgendamentoService.Cancelar | backend/src/main/java/com/ajeitai/backend/service/AgendamentoService.java:166-178 | the decision's outcome: an error with nothing changed, or the booking CANCELADO |
| AgendamentoServico.AgendamentoService.ConfirmarPagamento | backend/src/main/java/com/ajeitai/backend/service/AgendamentoService.java:180-187 | after the caller check, a missing payment is an error with the booking unchanged; otherwise the payment is confirmed and the booking CONFIRMADO |
| AgendamentoServico.AgendamentoService.ConfirmarPagamentoPorIdAgendamento | backend/src/main/java/com/ajeitai/backend/service/AgendamentoService.java:189-202 | an unknown id is an error; a booking not ACEITO is left alone; an ACEITO booking without payment is an error; otherwise payment and booking are both confirmed; in every case no row is added or removed and every other booking and payment is unchanged |
| AgendamentoServico.AgendamentoService.RegistrarCheckin | backend/src/main/java/com/ajeitai/backend/service/AgendamentoService.java:204-218 | the decision's outcome: an error with nothing changed, or check-in time and position recorded |
| AgendamentoServico.AgendamentoService.RegistrarCheckout | backend/src/main/java/com/ajeitai/backend/service/AgendamentoService.java:220-248 | the decision's outcome: an error with nothing changed, or photo, check-out time and position recorded and the booking REALIZADO |
| AgendamentoServico.AceitarSomentePendente | backend/src/main/java/com/ajeitai/backend/service/AgendamentoService.java:137-147 | accepting succeeds exactly on PENDENTE and ends CONFIRMADO for cash, ACEITO otherwise |
| AgendamentoServico.RecusarSomentePendente | backend/src/main/java/com/ajeitai/backend/service/AgendamentoService.java:159-162 | refusing succeeds exactly on PENDENTE and changes only the status, to RECUSADO |
| AgendamentoServico.CancelarExcetoRealizado | backend/src/main/java/com/ajeitai/backend/service/AgendamentoService.java:173-176 | cancelling fails exactly on REALIZADO; any other status, final ones included, becomes CANCELADO |
| AgendamentoServico.WebhookIdempotente | backend/src/main/java/com/ajeitai/backend/service/AgendamentoService.java:194-201 | a repeated gateway confirmation changes nothing |
| AgendamentoServico.ConfirmacaoDoClienteSemGuarda | backend/src/main/java/com/ajeitai/backend/service/AgendamentoService.java:180-187 | the client's confirmation has no status guard: a REALIZADO booking goes back to CONFIRMADO |
| AgendamentoServico.CheckinUmaVez | backend/src/main/java/com/ajeitai/backend/service/AgendamentoService.java:211-213 | after one successful check-in a second is refused |
| AgendamentoServico.CheckoutUmaVez | backend/src/main/java/com/ajeitai/backend/service/AgendamentoService.java:232-246 | a successful check-out ends REALIZADO and a second one is refused |
| AgendamentoServico.RealizadoSomentePorCheckout | backend/src/main/java/com/ajeitai/backend/service/AgendamentoService.java:226-248 | a step that reaches REALIZADO is a check-out after a check-in |
| AgendamentoServico.CanceladoViraRealizado | backend/src/main/java/com/ajeitai/backend/service/AgendamentoService.java:226-248 | check-out ignores the status: a booking checked in and then cancelled can still be checked out and ends REALIZADO |
| AgendamentoServico.ConflitoNoMesmoHorario | backend/src/main/java/com/ajeitai/backend/repository/AgendamentoRepository.java:54-60 | the conflict query with equal bounds holds exactly when a PENDENTE, ACEITO or CONFIRMADO booking of the provider has that exact time |
| ArmazenamentoLocal.NaoVazios | backend/src/main/java/com/ajeitai/backend/service/storage/LocalStorageService.java:36 | the non-empty path segments, each one taken from the input |
| ArmazenamentoLocal.NomesJuntados | backend/src/main/java/com/ajeitai/backend/service/storage/LocalStorageService.java:36 | the names of "a/b" are the names of a followed by those of b |
| ArmazenamentoLocal.NormalizarDe | backend/src/main/java/com/ajeitai/backend/service/storage/LocalStorageService.java:36 | normalising ordinary segments onto a normalised path leaves no ".", ".." or empty name |
| ArmazenamentoLocal.NormalizarComuns | backend/src/main/java/com/ajeitai/backend/service/storage/LocalStorageService.java:36 | ordinary names pass through `normalize` unchanged |
| ArmazenamentoLocal.NormalizarIdempotente | backend/src/main/java/com/ajeitai/backend/service/storage/LocalStorageService.java:36 | normalising twice is normalising once |
| ArmazenamentoLocal.ResolvidoNormalizado | backend/src/main/java/com/ajeitai/backend/service/storage/LocalStorageService.java:36 | whatever the key, the resolved path holds no ".", ".." or empty name |
| ArmazenamentoLocal.ChaveComumContida | backend/src/main/java/com/ajeitai/backend/service/storage/LocalStorageService.java:35-39 | a relative key of ordinary names resolves to base + its names, so it passes the `startsWith` check |
| ArmazenamentoLocal.SubirEscapa | backend/src/main/java/com/ajeitai/backend/service/storage/LocalStorageService.java:36-39 | a key "../sibling" leaves the base and is refused |
| ArmazenamentoLocal.NomesDeSubir | backend/src/main/java/com/ajeitai/backend/service/storage/LocalStorageService.java:36-39 | "../x" is relative and names ".." then x |
| ArmazenamentoLocal.SubirNormalizado | backend/src/main/java/com/ajeitai/backend/service/storage/LocalStorageService.java:36-39 | normalising base + ".." + x replaces the base's last name with x |
| ArmazenamentoLocal.ChaveAbsolutaIgnoraBase | backend/src/main/java/com/ajeitai/backend/service/storage/LocalStorageService.java:36 | an absolute key resolves to the same path under every base |
| ArmazenamentoLocal.LocalStorageService.constructor | backend/src/main/java/com/ajeitai/backend/service/storage/LocalStorageService.java:23-28 | each base is the configured directory (default "uploads" or "media") made absolute and normalised |
| ArmazenamentoLocal.LocalStorageService.Salvar | backend/src/main/java/com/ajeitai/backend/service/storage/LocalStorageService.java:30-43 | an empty upload is refused first, then a key leaving the base; success exactly otherwise, writing the bytes at the resolved path and returning the key; a failure writes nothing |
| ArmazenamentoLocal.LocalStorageService.Excluir | backend/src/main/java/com/ajeitai/backend/service/storage/LocalStorageService.java:45-55 | the file at a key inside the base is removed; an escaping key or a missing file changes nothing |
| ArmazenamentoLocal.LocalStorageService.SalvarObterExcluir | backend/src/test/java/com/ajeitai/backend/service/storage/LocalStorageServiceTest.java:46-53 | saving returns the key, the resource is then found, and after deleting it is gone |
| ArmazenamentoLocal.RecursoDentroDaBase | backend/src/main/java/com/ajeitai/backend/service/storage/LocalStorageService.java:57-65 | a resource is only served from inside its bucket's base and only for an existing file |
| Armazenamento.Extensao | backend/src/main/java/com/ajeitai/backend/service/ArmazenamentoMidiaService.java:30-34 | the extension is empty exactly when the last '.' is at index 0 or absent; otherwise it starts with that '.', contains no other, and ends the name |
| Armazenamento.OcultoSemExtensao | backend/src/main/java/com/ajeitai/backend/service/ArmazenamentoMidiaService.java:31-34 | a hidden file name like ".env" keeps no extension |
| Armazenamento.NomeUnicoComum | backend/src/main/java/com/ajeitai/backend/service/ArmazenamentoMidiaService.java:35 | a UUID plus any kept extension splits into ordinary path names only |
| Armazenamento.DepoisDaBarraSemPonto | backend/src/main/java/com/ajeitai/backend/service/ArmazenamentoMidiaService.java:35 | past the first '/' of a UUID plus extension there is no further '.' |
| Armazenamento.ChaveDeMidiaContida | backend/src/main/java/com/ajeitai/backend/service/ArmazenamentoMidiaService.java:35-37 | a media key in a non-empty relative folder of ordinary names resolves to base/folder/unique-name, inside the bucket |
| Armazenamento.ChaveEmPastaContida | backend/src/main/java/com/ajeitai/backend/service/ArmazenamentoMidiaService.java:36 | "folder/name" with ordinary names resolves under the base to the folder's names then the name's |
| Armazenamento.PastaDoPrestadorComum | backend/src/main/java/com/ajeitai/backend/service/ArmazenamentoDocumentoService.java:38 | "prestador-<id>" is one relative ordinary name, negative ids included |
| Armazenamento.ChaveDeDocumentoContida | backend/src/main/java/com/ajeitai/backend/service/ArmazenamentoDocumentoService.java:28-39 | a document key always resolves inside the documents bucket, whatever the client's file name |
| Armazenamento.ArmazenamentoMidiaService.Salvar | backend/src/main/java/com/ajeitai/backend/service/ArmazenamentoMidiaService.java:22-38 | an empty upload is refused with nothing stored; otherwise the key folder/UUID+extension is saved in the avatars bucket and returned, or refused as invalid with nothing stored |
| Armazenamento.ArmazenamentoDocumentoService.Salvar | backend/src/main/java/com/ajeitai/backend/service/ArmazenamentoDocumentoService.java:24-40 | an empty upload is refused with nothing stored; otherwise the key prestador-<id>/UUID+extension is saved in the documents bucket and returned, or refused as invalid with nothing stored |
| Armazenamento.ArmazenamentoDocumentoService.ObterRecurso | backend/src/main/java/com/ajeitai/backend/service/ArmazenamentoDocumentoService.java:45-47 | a document is only found inside the documents base and for an existing file |
| Armazenamento.ArmazenamentoDocumentoService.Excluir | backend/src/main/java/com/ajeitai/backend/service/ArmazenamentoDocumentoService.java:49-51 | deleting removes exactly the file at a valid key in the documents bucket |
| AssinaturaServico.UltimaAtiva | backend/src/main/java/com/ajeitai/backend/repository/AssinaturaPrestadorRepository.java:15 | the result, when present, is an ATIVA record of the provider whose end date is not before any other such record's; absent exactly when the provider has no ATIVA record |
| AssinaturaServico.VigenteSeAlgumaVigente | backend/src/main/java/com/ajeitai/backend/service/AssinaturaService.java:100-105 | when every ATIVA record has an end date, the provider counts as subscribed exactly when some ATIVA record of theirs ends today or later |
| AssinaturaServico.ResumoDe | backend/src/main/java/com/ajeitai/backend/service/AssinaturaService.java:33-35 | the summary copies status and dates of the found record with no payment link, and is CANCELADA with no dates when nothing was found |
| AssinaturaServico.AssinaturaService.constructor | backend/src/main/java/com/ajeitai/backend/service/AssinaturaService.java:20-28 | the service holds the given repositories and configured monthly price |
| AssinaturaServico.AssinaturaService.ObterStatusAssinatura | backend/src/main/java/com/ajeitai/backend/service/AssinaturaService.java:30-36 | fails exactly for an unknown provider; otherwise reports ATIVA or CANCELADA with no payment link, CANCELADA exactly when the provider has no ATIVA record at all, expired or not; CANCELADA carries no dates, ATIVA carries the start and end dates of the provider's latest ATIVA record |
| AssinaturaServico.AssinaturaService.PrestadorComAssinaturaAtiva | backend/src/main/java/com/ajeitai/backend/service/AssinaturaService.java:99-106 | fails exactly for an unknown provider; otherwise true exactly when the latest ATIVA record has an end date today or later |
| AssinaturaServico.AssinaturaService.IniciarOuRenovar | backend/src/main/java/com/ajeitai/backend/service/AssinaturaService.java:41-71 | an unknown provider or a running subscription writes nothing, the latter returning its summary; otherwise exactly one ATRASADA record starting today, priced at the configured value or 15.00, is appended under the next id, the charge is requested for "sub-" plus that id and the record's price, and the record carries the billing id and the summary the payment link of the gateway's answer to that charge, when it answered |
| AssinaturaServico.AssinaturaService.ProcessarPagamentoAssinatura | backend/src/main/java/com/ajeitai/backend/service/AssinaturaService.java:76-97 | an unknown id fails with its message and writes nothing; otherwise that one record becomes ATIVA from today to today plus 30 days with the payment time and billing id set, no other record changes, and the provider gets a new zero-balance wallet only if they had none |
| AvaliacaoServico.AvaliacaoRepository.constructor | backend/src/main/java/com/ajeitai/backend/repository/AvaliacaoRepository.java:8-9 | a new review table is empty |
| AvaliacaoServico.AvaliacaoRepository.PorAgendamento | backend/src/main/java/com/ajeitai/backend/repository/AvaliacaoRepository.java:9 | the found review belongs to the booking; none is found exactly when no stored review is for that booking |
| AvaliacaoServico.Referencia | backend/src/main/java/com/ajeitai/backend/service/AvaliacaoService.java:38-40 | the review window counts from the check-out when there is one, and from the booked time otherwise |
| AvaliacaoServico.AvaliacaoService.constructor | backend/src/main/java/com/ajeitai/backend/service/AvaliacaoService.java:18-22 | the service holds the given client, booking and review tables |
| AvaliacaoServico.AvaliacaoService.Recusa | backend/src/main/java/com/ajeitai/backend/service/AvaliacaoService.java:25-43 | there is no refusal exactly when the client exists, the booking exists and is theirs, it is REALIZADO, it has no review yet and seven days from its reference have not passed; an unknown client is refused first with the client-not-found error |
| AvaliacaoServico.AvaliacaoService.Avaliar | backend/src/main/java/com/ajeitai/backend/service/AvaliacaoService.java:24-52 | fails exactly when there is a refusal, with that refusal's message and nothing written; otherwise exactly one review with the booking, its client and provider, the score and the comment is appended under the next id, and the booking's review lookup then finds it |
| AvaliacaoServico.SegundaAvaliacaoRecusada | backend/src/main/java/com/ajeitai/backend/service/AvaliacaoService.java:35-37 | a booking that passes the earlier checks but already has a review is refused with "Este agendamento já foi avaliado." |
| AvaliacaoServico.PrazoInclusivo | backend/src/main/java/com/ajeitai/backend/service/AvaliacaoService.java:41 | exactly seven days after the reference a review is still accepted, and one moment later it is refused |
| Catalogo.Distancia | backend/src/main/java/com/ajeitai/backend/service/CatalogoService.java:142-152 | a distance exists exactly when the caller sent both coordinates and the provider's address has both, and it is the haversine of those four |
| Catalogo.ResumoDe | backend/src/main/java/com/ajeitai/backend/service/CatalogoService.java:108-126 | the summary copies the provider's id, name, category, price and avatar, takes city and state from the address when there is one, counts a missing average as 0, and carries the review and service counts and the distance |
| Catalogo.CriterioDe | backend/src/main/java/com/ajeitai/backend/service/CatalogoService.java:128-140 | no or blank label sorts by distance; the lower-cased label "avaliacao" and only it picks rating, "valorHora" or "valorservico" picks price, "experiencia" or "popularidade" picks completed services, and every other label falls back to distance |
| Catalogo.ValorHoraNuncaCasa | backend/src/main/java/com/ajeitai/backend/service/CatalogoService.java:132-134 | no lower-cased label equals "valorHora", so that case label can never match |
| Catalogo.ValorHoraOrdenaPorDistancia | backend/src/main/java/com/ajeitai/backend/service/CatalogoService.java:132-138 | asking for "valorHora" sorts by distance, not by price |
| Catalogo.OutroCriterio | backend/src/main/java/com/ajeitai/backend/service/CatalogoService.java:138 | a non-blank label that is none of the known ones sorts by distance |
| Catalogo.AntesTotal | backend/src/main/java/com/ajeitai/backend/service/CatalogoService.java:130-138 | every criterion's order compares any two summaries one way or the other |
| Catalogo.AntesTransitivo | backend/src/main/java/com/ajeitai/backend/service/CatalogoService.java:130-138 | every criterion's order is transitive, missing values last |
| Catalogo.Inserir | backend/src/main/java/com/ajeitai/backend/service/CatalogoService.java:53 | inserting into a list adds exactly that element to its multiset |
| Catalogo.InserirOrdenado | backend/src/main/java/com/ajeitai/backend/service/CatalogoService.java:53 | inserting into an ordered list keeps it ordered |
| Catalogo.Ordenar | backend/src/main/java/com/ajeitai/backend/service/CatalogoService.java:53 | the sorted list is ordered by the criterion and is a permutation of the input; it is stable (`Catalogo.OrdenarEstavel`) |
| Catalogo.OrdenarMembros | backend/src/main/java/com/ajeitai/backend/service/CatalogoService.java:53 | sorting neither adds nor drops an element |
| Catalogo.MembrosEmpatados | backend/src/main/java/com/ajeitai/backend/service/CatalogoService.java:53 | the elements picked out as equal to `y` are exactly the list's elements that compare equal to `y` |
| Catalogo.EmpateTransitivo | backend/src/main/java/com/ajeitai/backend/service/CatalogoService.java:53 | two elements that compare equal to the same element may precede each other |
| Catalogo.InserirEstavel | backend/src/main/java/com/ajeitai/backend/service/CatalogoService.java:53 | inserting puts the new element ahead of the elements equal to it and keeps their order |
| Catalogo.OrdenarEstavel | backend/src/main/java/com/ajeitai/backend/service/CatalogoService.java:53 | `sorted` is stable: for every element, the elements equal to it come out in their input order |
| Catalogo.TodosEmpatados | backend/src/main/java/com/ajeitai/backend/service/CatalogoService.java:53 | when all elements compare equal, sorting returns the list unchanged |
| Catalogo.Selecionar | backend/src/main/java/com/ajeitai/backend/service/CatalogoService.java:45-50 | a provider is kept exactly when it is in the table, is active or has no flag, matches the category, and matches city and state ignoring case when those are given |
| Catalogo.SelecionarDaBusca | backend/src/main/java/com/ajeitai/backend/service/CatalogoService.java:92-97 | a provider is kept exactly when it is active or has no flag, matches the category, and its lower-cased name contains the lower-cased search unless the search is missing or blank |
| Catalogo.Resumir | backend/src/main/java/com/ajeitai/backend/service/CatalogoService.java:51 | one summary per row, in order, each the row's summary |
| Catalogo.AcimaDoMinimo | backend/src/main/java/com/ajeitai/backend/service/CatalogoService.java:52 | a summary is kept exactly when no minimum is given or its average is at least the minimum |
| Catalogo.SemCoordenadasOrdemDaTabela | backend/src/main/java/com/ajeitai/backend/service/CatalogoService.java:44-54 | without the caller's latitude every distance is null, so the list is the filtered summaries in table order |
| Catalogo.ListarPrestadoresCaracterizado | backend/src/main/java/com/ajeitai/backend/service/CatalogoService.java:36-55 | the list is ordered by distance, and a summary is in it exactly when it is the summary of a provider that passes the filters and meets the minimum rating |
| Catalogo.ListaOrdenadaCaracterizada | backend/src/main/java/com/ajeitai/backend/service/CatalogoService.java:83-101 | the list the page is cut from is ordered by the chosen criterion and holds exactly the summaries of matching providers that meet the minimum rating |
| Catalogo.Fatiar | backend/src/main/java/com/ajeitai/backend/service/CatalogoService.java:102-105 | with no int overflow, the cut succeeds exactly when the offset is at most the list size, and is then the slice from the offset to the smaller of offset plus page size and the size, reporting the full size; an offset past the end fails with subList's message; whatever the offset, a produced page holds only entries of the list |
| Catalogo.PaginaAlemDoInt | backend/src/main/java/com/ajeitai/backend/service/CatalogoService.java:102 | the long offset is narrowed to an int: page 65536 of size 65536 reads as page 0 |
| Catalogo.CorteOrdenado | backend/src/main/java/com/ajeitai/backend/service/CatalogoService.java:104 | a cut of an ordered list is ordered |
| Catalogo.PaginaDaBusca | backend/src/main/java/com/ajeitai/backend/service/CatalogoService.java:83-106 | a page cut from the ordered, filtered list is ordered by the criterion and holds only summaries of providers that pass the search and category filters and meet the minimum rating |
| Catalogo.ListarPrestadoresPaginado | backend/src/main/java/com/ajeitai/backend/service/CatalogoService.java:83-106 | the page is the cut of the ordered, filtered list at offset page times size: when that offset plus the size fits an int, a page is produced exactly when the offset is at most the list's length, and it is then the list from the offset up to the smaller of offset plus size and the length, reporting the length as total; a produced page is ordered by the chosen criterion, and each of its entries is the summary of a provider that passes the search and category filters and meets the minimum rating |
| Catalogo.BuscarDetalhe | backend/src/main/java/com/ajeitai/backend/service/CatalogoService.java:57-78 | fails with "Prestador não encontrado." exactly for an unknown id; otherwise carries the provider's public data (id, name, category, fee, avatar, and city and state from the address, absent without one), a missing average as 0, and exactly the public form of their portfolio items, newest (highest id) first |
| CarteiraServico.Taxa | backend/src/main/java/com/ajeitai/backend/service/WalletService.java:45 | the commission in cents is the gross value times the rate rounded half-up to whole cents: it is within half a cent of the exact product, and non-negative when the product is |
| CarteiraServico.TaxaPadrao | backend/src/main/java/com/ajeitai/backend/service/WalletService.java:23-29 | at the default rate 0.07 the commission on a non-negative gross value is (7g + 50) div 100 cents |
| CarteiraServico.TaxaLimitada | backend/src/main/java/com/ajeitai/backend/service/WalletService.java:45-46 | for a rate between 0 and 1 the commission lies between 0 and the gross value, so the net value is non-negative and at most the gross |
| CarteiraServico.ExemploCem | backend/src/main/java/com/ajeitai/backend/service/WalletService.java:31-33 | a gross 100.00 at the default rate gives a 7.00 commission and a 93.00 net credit |
| CarteiraServico.WalletService.constructor | backend/src/main/java/com/ajeitai/backend/service/WalletService.java:21-29 | the service holds the given wallet and ledger tables and the configured rate |
| CarteiraServico.WalletService.CreditarPorPagamentoConfirmado | backend/src/main/java/com/ajeitai/backend/service/WalletService.java:35-70 | a payment already in the ledger, or a missing or non-positive gross value, changes nothing; otherwise exactly one credit line records gross, commission, net, booking and payment, and the provider's wallet (created at zero when missing) grows by the net value; afterwards the payment is in the ledger unless the value was not positive, so a repeat credits nothing |
| ClienteServico.NovoCliente | backend/src/main/java/com/ajeitai/backend/service/ClienteService.java:21-29 | a new client takes the token's e-mail over the form's, the form's name, phone, CPF and address, no avatar, and starts active |
| ClienteServico.AtualizarCliente | backend/src/main/java/com/ajeitai/backend/service/ClienteService.java:40-53 | a non-blank name and a non-null phone are applied, a given address updates the existing one or becomes the address, and identity, CPF, e-mail, active flag and avatar stay |
| ClienteServico.AtualizarClienteIdempotente | backend/src/main/java/com/ajeitai/backend/service/ClienteService.java:40-53 | applying the same profile update twice gives the same client as applying it once |
| ClienteServico.ClienteService.constructor | backend/src/main/java/com/ajeitai/backend/service/ClienteService.java:13-15 | the service holds the given client table |
| ClienteServico.ClienteService.BuscarPorKeycloakId | backend/src/main/java/com/ajeitai/backend/service/ClienteService.java:34-37 | the found client is in the table with that Keycloak id; it fails, with "Cliente não encontrado para o usuário logado.", exactly when no client has that id |
| ClienteServico.ClienteService.Vincular | backend/src/main/java/com/ajeitai/backend/service/ClienteService.java:17-32 | an already linked client is returned and nothing is written; otherwise exactly one new client row is appended under the next id and returned |
| ClienteServico.ClienteService.Atualizar | backend/src/main/java/com/ajeitai/backend/service/ClienteService.java:39-54 | an unknown caller fails and writes nothing; otherwise the caller's row, and no other, is replaced by its update in place |
| ClienteServico.ClienteService.AtualizarAvatar | backend/src/main/java/com/ajeitai/backend/service/ClienteService.java:56-61 | an unknown caller fails and writes nothing; otherwise only the avatar URL of the caller's row changes |
| ContextoUsuario.ResolveUserType | backend/src/main/java/com/ajeitai/backend/infra/security/UserContextFilter.java:51-66 | no roles is UNKNOWN; ADMIN exactly needs an admin role, PRESTADOR a provider role and no admin role, CLIENTE a client role and neither of the others, each in either spelling; UNKNOWN exactly when none of the six role names is present |
| ContextoUsuario.PrecedenciaMonotona | backend/src/main/java/com/ajeitai/backend/infra/security/UserContextFilter.java:56-65 | granting more roles never resolves to a lower-ranked user type |
| ContextoUsuario.ResolvidoTemPapel | backend/src/main/java/com/ajeitai/backend/infra/security/UserContext.java:42-45 | a resolved user type is always backed by a role that `hasRole` confirms for that type's name, with or without the "ROLE_" prefix |
| ContextoUsuario.UserContext.constructor | backend/src/main/java/com/ajeitai/backend/infra/security/UserContext.java:24-28 | a null user type is stored as UNKNOWN and null roles as the empty set; no client or provider id is cached yet |
| ContextoUsuario.UserContext.SetClienteId | backend/src/main/java/com/ajeitai/backend/infra/security/UserContext.java:63-65 | sets the cached client id and leaves the provider id as it was |
| ContextoUsuario.UserContext.SetPrestadorId | backend/src/main/java/com/ajeitai/backend/infra/security/UserContext.java:71-73 | sets the cached provider id and leaves the client id as it was |
| ContextoUsuario.UmPapelNoMaximo | backend/src/main/java/com/ajeitai/backend/infra/security/UserContext.java:47-57 | at most one of isCliente, isPrestador and isAdmin holds, and none exactly for UNKNOWN |
| ContextoUsuario.UserContextHolder.constructor | backend/src/main/java/com/ajeitai/backend/infra/security/UserContextHolder.java:13 | the request's holder starts empty |
| ContextoUsuario.RolesDe | backend/src/main/java/com/ajeitai/backend/infra/security/UserContextFilter.java:35-37 | the role set holds exactly the token's authorities |
| ContextoUsuario.UserContextFilter.DoFilterInternal | backend/src/main/java/com/ajeitai/backend/infra/security/UserContextFilter.java:25-49 | the chain sees a context exactly for an authenticated JWT token, built from its subject and authorities with the resolved user type and no cached ids; the holder is empty again afterwards in every case |
| Dominio.Mesclar | backend/src/main/java/com/ajeitai/backend/service/ClienteService.java:45-47 | a non-null new value replaces the stored one and a null keeps it |
| Dominio.AtualizarEnderecoIdempotente | backend/src/main/java/com/ajeitai/backend/service/ClienteService.java:48-49 | applying the same address update twice is applying it once |
| Dominio.AtualizarEnderecoCompleto | backend/src/main/java/com/ajeitai/backend/service/ClienteService.java:48-49 | an address update with every field present replaces the stored address outright |
| Dominio.ClientePorKeycloak | backend/src/main/java/com/ajeitai/backend/repository/ClienteRepository.java:9 | the found client is in the table with that Keycloak id; none is found exactly when no client has it |
| Dominio.PrestadorPorKeycloak | backend/src/main/java/com/ajeitai/backend/repository/PrestadorRepository.java:9 | the found provider is in the table with that Keycloak id; none is found exactly when no provider has it |
| Dominio.PrestadorPorId | backend/src/main/java/com/ajeitai/backend/service/CatalogoService.java:59-60 | the found provider is in the table with that id; none is found exactly when no provider has it |
| Dominio.DisponibilidadeRepository.DoDia | backend/src/main/java/com/ajeitai/backend/repository/DisponibilidadeRepository.java:11 | a slot is returned exactly when it is one of that provider's slots and lies on the requested weekday |
| Excecoes.RequestId | backend/src/main/java/com/ajeitai/backend/infra/exception/GlobalExceptionHandler.java:86-89 | the request id is the diagnostic context's value, or "" when it has none |
| Excecoes.Tratar | backend/src/main/java/com/ajeitai/backend/infra/exception/GlobalExceptionHandler.java:25-84 | every response carries the request path, time and request id; validation errors are 400 with the field errors, access denial is 403, an illegal argument is 404 exactly when its message (or "Requisição inválida" for none) contains "não encontrado" and 400 otherwise, with that message, and any other exception is 500 with the fixed ERRO_INTERNO message |
| Excecoes.InternoNaoExpoe | backend/src/main/java/com/ajeitai/backend/infra/exception/GlobalExceptionHandler.java:72-84 | an internal error's response is the same whatever the exception said |
| Excecoes.ContemNaoEncontrado | backend/src/main/java/com/ajeitai/backend/infra/exception/GlobalExceptionHandler.java:60 | every message of the shape "... não encontrado ..." contains the marker the handler looks for |
| Excecoes.MensagemNulaEhInvalida | backend/src/main/java/com/ajeitai/backend/infra/exception/GlobalExceptionHandler.java:59-61 | an illegal argument without a message is a 400 with "Requisição inválida" |
| Excecoes.Vira404 | backend/src/main/java/com/ajeitai/backend/infra/exception/GlobalExceptionHandler.java:60-61 | any illegal-argument message containing "não encontrado" is answered 404 |
| FiltroAssinatura.PrestadorAssinaturaFilter.constructor | backend/src/main/java/com/ajeitai/backend/infra/security/PrestadorAssinaturaFilter.java:25-27 | the filter holds the given subscription service |
| FiltroAssinatura.PrestadorAssinaturaFilter.DoFilterInternal | backend/src/main/java/com/ajeitai/backend/infra/security/PrestadorAssinaturaFilter.java:29-58 | a request outside /api/prestadores, without the provider role, on an exempt endpoint or without a JWT subject goes down the chain; a guarded request is answered 402 with the JSON inactive-subscription body exactly when the provider's subscription lookup says not running, and fails exactly when that lookup fails |
| FiltroAssinatura.VigentePassa | backend/src/main/java/com/ajeitai/backend/infra/security/PrestadorAssinaturaFilter.java:50 | a provider whose latest ATIVA subscription ends today or later is never stopped, on any endpoint |
| FiltroAssinatura.BloqueioSoSemVigencia | backend/src/main/java/com/ajeitai/backend/infra/security/PrestadorAssinaturaFilter.java:50-55 | a 402 is only ever sent to a registered provider with a JWT subject whose subscription is not running today |
| FiltroAssinatura.AssinaturaSempreAcessivel | backend/src/main/java/com/ajeitai/backend/infra/security/PrestadorAssinaturaFilter.java:64-66 | any path containing /me/assinatura is exempt, whatever the method |
| Financeiro.SaldoDoLedgerAnexar | backend/src/main/java/com/ajeitai/backend/service/WalletService.java:57-66 | appending one ledger line moves only its own provider's ledger balance, by exactly its credit or debit |
| Financeiro.SaldoDoLedgerSemLinhas | backend/src/main/java/com/ajeitai/backend/service/WalletService.java:48-55 | a provider no ledger line mentions has a ledger balance of zero |
| Financeiro.ConciliadoNovaWallet | backend/src/main/java/com/ajeitai/backend/service/WalletService.java:48-55 | creating a zero-balance wallet for a provider without one keeps every wallet equal to its ledger balance |
| Financeiro.ConciliadoLancamento | backend/src/main/java/com/ajeitai/backend/service/WalletService.java:57-69 | appending a line and moving its provider's wallet by exactly its effect keeps every wallet equal to its ledger balance |
| Financeiro.WalletOuNova | backend/src/main/java/com/ajeitai/backend/service/WalletService.java:48-55 | the provider's existing wallet, or a new zero-balance one under the next id when there is none |
| Idempotencia.Sanitizar | backend/src/main/java/com/ajeitai/backend/infra/web/IdempotencyFilter.java:63 | the sanitised key has the same length, holds only letters, digits, "_" and "-", and keeps every character that already was one |
| Idempotencia.SanitizarIdempotente | backend/src/main/java/com/ajeitai/backend/infra/web/IdempotencyFilter.java:63 | sanitising a sanitised key changes nothing |
| Idempotencia.ChaveBemFormada | backend/src/main/java/com/ajeitai/backend/infra/web/IdempotencyFilter.java:62-67 | the store key is "idem:" followed by one to 128 characters, each a letter, digit, "_" or "-" |
| Idempotencia.ChavesNaoColidem | backend/src/main/java/com/ajeitai/backend/infra/web/IdempotencyFilter.java:67-68 | no answer key equals any running-request marker key, whatever the two headers |
| Idempotencia.ChaveDeControle | backend/src/main/java/com/ajeitai/backend/infra/web/IdempotencyFilter.java:50-67 | a header of one control character passes the filter's guard (it is not blank) yet trims to nothing, so it takes the hash fallback and maps to "idem:0" |
| Idempotencia.MarcadorNuncaFica | backend/src/main/java/com/ajeitai/backend/infra/web/IdempotencyFilter.java:70-130 | a pass leaves the marker as it found it, runs the chain exactly when neither the marker nor a stored answer exists, and changes no key but the request's own answer, and none at all when the chain did not run |
| Idempotencia.ConcorrenteRecusado | backend/src/main/java/com/ajeitai/backend/infra/web/IdempotencyFilter.java:70-84 | while the marker exists a second request is refused with 409, Retry-After and IDEMPOTENCIA_EM_PROCESSAMENTO, without running the chain or touching the store |
| Idempotencia.RetryAfter | backend/src/main/java/com/ajeitai/backend/infra/web/IdempotencyFilter.java:34 | the Retry-After header reads "120" |
| Idempotencia.RepeticaoReproduz | backend/src/main/java/com/ajeitai/backend/infra/web/IdempotencyFilter.java:86-130 | after a first run whose 2xx JSON answer with a body was kept, a repeat replays that status and body without running the chain and leaves the store as it was |
| Idempotencia.SemCacheExecutaDeNovo | backend/src/main/java/com/ajeitai/backend/infra/web/IdempotencyFilter.java:115-128 | a request whose answer was not kept runs the chain again when repeated |
| Idempotencia.IdempotencyFilter.DoFilterInternal | backend/src/main/java/com/ajeitai/backend/infra/web/IdempotencyFilter.java:59-131 | the answer, whether the chain ran, and the new store are exactly the pass described by the filter's effect on the old store |
| Idempotencia.IdempotencyFilter.Processar | backend/src/main/java/com/ajeitai/backend/infra/web/IdempotencyFilter.java:67-130 | the pass under one answer key matches its specification: marker check, marker set, replay or run and keep, marker removed |
| LimiteRequisicoes.SanitizarId | backend/src/main/java/com/ajeitai/backend/infra/web/RateLimitFilter.java:85 | the id keeps its length; each letter, digit, "." and ":" stays and every other character becomes "_" |
| LimiteRequisicoes.SoVirgulasFalha | backend/src/main/java/com/ajeitai/backend/infra/web/RateLimitFilter.java:84-85 | a forwarding header of a single comma is not blank, yet its split is empty, so indexing its first entry throws and the request gets no id |
| LimiteRequisicoes.ClientId | backend/src/main/java/com/ajeitai/backend/infra/web/RateLimitFilter.java:82-88 | with a first forwarding entry the id holds only allowed characters or "_"; a header that is missing, blank or commas only falls back to the remote address with ":" replaced, or "unknown" |
| LimiteRequisicoes.ClientIdCorrigido | backend/src/main/java/com/ajeitai/backend/infra/web/RateLimitFilter.java:82-88 | the written id throws exactly for a non-blank header made only of commas, and wherever it does not throw it equals the corrected id |
| LimiteRequisicoes.SoAPrimeiraEntradaConta | backend/src/main/java/com/ajeitai/backend/infra/web/RateLimitFilter.java:85 | of a forwarded list only the trimmed, sanitised first entry names the client |
| LimiteRequisicoes.PrimeiraEntrada | backend/src/main/java/com/ajeitai/backend/infra/web/RateLimitFilter.java:85 | a non-blank entry without commas, followed by a comma, is the header's first entry |
| LimiteRequisicoes.ContadorContaRequisicoes | backend/src/main/java/com/ajeitai/backend/infra/web/RateLimitFilter.java:59 | in a fresh window a client's counter is the number of requests made in it, and no other counter moves |
| LimiteRequisicoes.LimiteExato | backend/src/main/java/com/ajeitai/backend/infra/web/RateLimitFilter.java:59-63 | in a fresh window the n-th request is refused exactly when n exceeds the maximum, so the maximum-th still passes |
| LimiteRequisicoes.RateLimitFilter.constructor | backend/src/main/java/com/ajeitai/backend/infra/web/RateLimitFilter.java:41-50 | unset properties fall back to 200 requests per 60 seconds; the counter store starts empty |
| LimiteRequisicoes.RateLimitFilter.Contar | backend/src/main/java/com/ajeitai/backend/infra/web/RateLimitFilter.java:58-75 | one increment of the client's counter and nothing else, an expiry set exactly when that starts the window, and a 429 RATE_LIMIT answer exactly when the new count exceeds the maximum |
| LimiteRequisicoes.RateLimitFilter.DoFilterInternal | backend/src/main/java/com/ajeitai/backend/infra/web/RateLimitFilter.java:52-80 | counts under "rl:" plus the corrected client id (`ClientId`, see Findings); the count, the expiry and the 429 answer are those of `Contar`; when the store fails the request passes and nothing changes |
| ListagemPrestadores.ValueOf | backend/src/main/java/com/ajeitai/backend/domain/prestador/CategoriaAtuacao.java:6-22 | the category with exactly that name, and none exactly when no category is so named |
| ListagemPrestadores.Chave | backend/src/main/java/com/ajeitai/backend/controller/ListagemPrestadoresController.java:50 | the key has the value's length; each character is upper-cased, and "-" and " " become "_" |
| ListagemPrestadores.ParseCategoria | backend/src/main/java/com/ajeitai/backend/controller/ListagemPrestadoresController.java:47-54 | a missing or blank value and a value whose key names no category give no category (not an error); otherwise the category named by the key |
| ListagemPrestadores.NomesDeConstante | backend/src/main/java/com/ajeitai/backend/domain/prestador/CategoriaAtuacao.java:6-22 | every category name is made of upper-case letters and "_" only, so upper-casing and the replacements leave it unchanged |
| ListagemPrestadores.NomeSelecionaCategoria | backend/src/main/java/com/ajeitai/backend/controller/ListagemPrestadoresController.java:47-54 | every category's own name selects that category |
| ListagemPrestadores.CategoriaInjetiva | backend/src/main/java/com/ajeitai/backend/domain/prestador/CategoriaAtuacao.java:6-22 | no two categories share a name |
| ListagemPrestadores.ChaveSelecionaCategoria | backend/src/main/java/com/ajeitai/backend/controller/ListagemPrestadoresController.java:50 | any spelling whose key is a category's name, such as "ar-condicionado" or "Ar Condicionado", selects that category |
| ListagemPrestadores.MesmaChaveMesmaCategoria | backend/src/main/java/com/ajeitai/backend/controller/ListagemPrestadoresController.java:47-54 | two values with the same key select the same category, or none alike |
| ListagemPrestadores.Listar | backend/src/main/java/com/ajeitai/backend/controller/ListagemPrestadoresController.java:28-45 | a negative page or a size below one is refused by the page request; otherwise the list is produced: the cut at page times size of the ordered list for the parsed category, with the same bounds, content and total as `Catalogo.ListarPrestadoresPaginado`, ordered by the chosen criterion and holding only summaries of providers that pass the filters and the minimum rating |
| ListagemPrestadores.PrimeiraPaginaPadrao | backend/src/main/java/com/ajeitai/backend/controller/ListagemPrestadoresController.java:31-32 | with no parameters the answer is the first ten providers in distance order, with the full count |
| Notificacao.Upsert | backend/src/main/java/com/ajeitai/backend/service/NotificacaoService.java:21-34 | the table gains the token's key and keeps every other row as it was; the token's row belongs to the provider with the new platform, keeping its id and creation time when it existed and taking the next id and the current time when new |
| Notificacao.UpsertIdempotente | backend/src/main/java/com/ajeitai/backend/service/NotificacaoService.java:19-35 | registering the same token again for the same provider and platform changes nothing |
| Notificacao.UpsertConta | backend/src/main/java/com/ajeitai/backend/service/NotificacaoService.java:21-34 | a registration adds a row exactly when the token was unknown |
| Notificacao.NotificacaoTokenRepository.PorPrestador | backend/src/main/java/com/ajeitai/backend/repository/NotificacaoTokenRepository.java:12 | exactly the tokens registered to that provider |
| Notificacao.NotificacaoService.constructor | backend/src/main/java/com/ajeitai/backend/service/NotificacaoService.java:13-16 | the service holds the given provider and token tables |
| Notificacao.NotificacaoService.RegistrarToken | backend/src/main/java/com/ajeitai/backend/service/NotificacaoService.java:18-35 | an unknown provider fails with the provider-not-found error and writes nothing; otherwise the table becomes the upsert, the saved row is returned, and the next id moves exactly when the token was new |
| Numeros.NatToString | backend/src/main/java/com/ajeitai/backend/service/AssinaturaService.java:62 | the decimal numeral is non-empty, all digits, and has no leading zero unless it is "0" |
| Numeros.ValueOfNatToString | backend/src/main/java/com/ajeitai/backend/service/AssinaturaService.java:62 | the numeral's value is the number printed |
| Numeros.LongToString | backend/src/main/java/com/ajeitai/backend/service/AssinaturaService.java:62 | the text of a long is non-empty, all digits for a non-negative value, and "-" followed by digits for a negative one |
| Numeros.ParseLong | backend/src/main/java/com/ajeitai/backend/controller/AbacatePayWebhookController.java:69 | a parsed value comes from a numeral of ASCII digits and lies in the long range; any other text is refused (narrower than the source, see Left out); the value is stated by `Numeros.ParseLongDeDigitos` |
| Numeros.ParseLongDeDigitos | backend/src/main/java/com/ajeitai/backend/controller/AbacatePayWebhookController.java:69 | for every digit string: its value when that fits a long, else refused; with "-" the negated value when it fits, else refused; "+" changes nothing |
| Numeros.ParseLongExemplos | backend/src/main/java/com/ajeitai/backend/controller/AbacatePayWebhookController.java:69 | "+5" parses to 5 and "007" to 7 |
| Numeros.ParseLongOfLongToString | backend/src/main/java/com/ajeitai/backend/controller/AbacatePayWebhookController.java:68-73 | parsing the printed form of any long gives that long back |
| Numeros.ParseSuffix | backend/src/main/java/com/ajeitai/backend/controller/AbacatePayWebhookController.java:69 | cutting a known prefix off prefix-plus-number leaves the number's text, which parses back to the number |
| Numeros.RoundHalfUp | backend/src/main/java/com/ajeitai/backend/service/WalletService.java:45 | the rounded quotient is within half a unit of the exact one, with a tie rounded away from zero, and is non-negative for a non-negative numerator |
| Numeros.Int32 | backend/src/main/java/com/ajeitai/backend/service/CatalogoService.java:102 | the narrowed value lies in the int range and agrees with the original modulo 2^32 |
| Numeros.Int32Identidade | backend/src/main/java/com/ajeitai/backend/service/CatalogoService.java:102 | narrowing leaves a value that already fits an int unchanged |
| PagamentoEntidade.Pagamento.constructor | backend/src/main/java/com/ajeitai/backend/domain/pagamento/Pagamento.java:18-45 | a built payment has its booking, status, link and billing id, and no creation or confirmation time yet |
| PagamentoEntidade.Pagamento.PrePersist | backend/src/main/java/com/ajeitai/backend/domain/pagamento/Pagamento.java:46-51 | stamps the creation time only when it is unset; nothing else changes |
| PagamentoEntidade.Pagamento.Confirmar | backend/src/main/java/com/ajeitai/backend/domain/pagamento/Pagamento.java:53-56 | the status becomes CONFIRMADO with the confirmation time stamped; link, billing id, creation time and booking stay |
| PagamentoEntidade.PagamentosDistintos | backend/src/main/java/com/ajeitai/backend/domain/pagamento/Pagamento.java:12 | with payments keyed by their booking, two bookings never share one payment object |
| PagamentoServico.StatusInicial | backend/src/main/java/com/ajeitai/backend/service/PagamentoService.java:72-77 | a new payment is NAO_APLICAVEL exactly for cash and PENDENTE exactly otherwise |
| PagamentoServico.EstadoConfirmado | backend/src/main/java/com/ajeitai/backend/service/PagamentoService.java:52-54 | after confirmation the status is CONFIRMADO with the creation time kept; an already confirmed payment is left exactly as it was, any other gets the confirmation time |
| PagamentoServico.ConfirmacaoIdempotente | backend/src/main/java/com/ajeitai/backend/service/PagamentoService.java:48-56 | a second confirmation, at any later time, changes nothing |
| PagamentoServico.PagamentoService.constructor | backend/src/main/java/com/ajeitai/backend/service/PagamentoService.java:13-18 | the service holds the given payment table |
| PagamentoServico.PagamentoService.CriarPagamento | backend/src/main/java/com/ajeitai/backend/service/PagamentoService.java:20-46 | a booking's existing payment is returned untouched and nothing is written; otherwise one new payment for the booking is stored under the next id with the initial status for its form and the creation time; cash has no link and no billing id, and online takes the gateway's link and billing id, or the fallback checkout URL ending in the booking id when the gateway gave nothing |
| PagamentoServico.PagamentoService.ConfirmarPagamento | backend/src/main/java/com/ajeitai/backend/service/PagamentoService.java:48-56 | fails with "Pagamento não encontrado." when the booking has no payment; otherwise returns that payment, confirmed as described, keeping a first confirmation time |
| PagamentoServico.PagamentoService.BuscarPorAgendamento | backend/src/main/java/com/ajeitai/backend/service/PagamentoService.java:59-62 | the booking's payment exactly when it has one, and "Pagamento não encontrado." otherwise |
| PagamentoServico.PagamentoService.CancelarPorAgendamento | backend/src/main/java/com/ajeitai/backend/service/PagamentoService.java:64-70 | without a payment nothing happens; otherwise only that payment's status becomes CANCELADO |
| Portfolio.DoPrestadorInvertido | backend/src/main/java/com/ajeitai/backend/repository/PortfolioRepository.java:10 | from a table in increasing id order, exactly the provider's items, in decreasing id order |
| Portfolio.SemItem | backend/src/main/java/com/ajeitai/backend/service/PortfolioService.java:45 | the table without the row of that id, every other row kept |
| Portfolio.SemItemRemoveUm | backend/src/main/java/com/ajeitai/backend/service/PortfolioService.java:45 | with unique ids, deleting a present id removes exactly one row |
| Portfolio.SemItemSemOcorrencia | backend/src/main/java/com/ajeitai/backend/service/PortfolioService.java:43-45 | deleting an id no row has changes nothing |
| Portfolio.PastaInjetiva | backend/src/main/java/com/ajeitai/backend/service/PortfolioService.java:29 | two providers never share a portfolio folder |
| Portfolio.PortfolioRepository.PorPrestadorOrdemDesc | backend/src/main/java/com/ajeitai/backend/repository/PortfolioRepository.java:10 | exactly the provider's items, highest id first |
| Portfolio.PortfolioRepository.PorIdEPrestador | backend/src/main/java/com/ajeitai/backend/repository/PortfolioRepository.java:12 | the found item has that id and belongs to that provider; none is found exactly when no item matches both |
| Portfolio.PortfolioService.constructor | backend/src/main/java/com/ajeitai/backend/service/PortfolioService.java:16-20 | the service holds the given provider and portfolio tables |
| Portfolio.PortfolioService.ListarPorPrestador | backend/src/main/java/com/ajeitai/backend/service/PortfolioService.java:22-24 | exactly the provider's items, newest (highest id) first |
| Portfolio.PortfolioService.Adicionar | backend/src/main/java/com/ajeitai/backend/service/PortfolioService.java:26-38 | an unknown provider or a failed upload writes nothing; success exactly when both pass, appending one item under the next id with the title, description and the path stored under "prestador-<id>/portfolio" |
| Portfolio.PortfolioService.Remover | backend/src/main/java/com/ajeitai/backend/service/PortfolioService.java:40-46 | succeeds exactly when the caller is a provider and owns an item with that id, which is then the one row removed; otherwise nothing changes, and a known provider gets "Item de portfólio não encontrado." |
| Portfolio.SemItemPreservaOrdem | backend/src/main/java/com/ajeitai/backend/service/PortfolioService.java:45 | deleting rows keeps the rest in increasing id order |
| PrestadorServico.NovoPrestador | backend/src/main/java/com/ajeitai/backend/service/PrestadorService.java:43-53 | a new provider takes the form's e-mail over the token's (the opposite of clients), the form's name, CNPJ, category, price, phone and address, no avatar, and starts active |
| PrestadorServico.AtualizarPrestador | backend/src/main/java/com/ajeitai/backend/service/PrestadorService.java:64-87 | a non-blank trade name and the non-null e-mail, phone, category and price are applied, a given address updates the existing one or becomes the address, and identity, CNPJ, active flag and avatar stay |
| PrestadorServico.AtualizarPrestadorIdempotente | backend/src/main/java/com/ajeitai/backend/service/PrestadorService.java:64-87 | applying the same profile update twice gives the same provider as applying it once |
| PrestadorServico.NovosSlots | backend/src/main/java/com/ajeitai/backend/service/PrestadorService.java:115-122 | one slot per item, in order, owned by the provider, with the item's weekday, start and end |
| PrestadorServico.SomaValoresPermutacao | backend/src/main/java/com/ajeitai/backend/service/PrestadorService.java:164-173 | the month's total does not depend on the order the query returns the bookings in |
| PrestadorServico.Dashboard | backend/src/main/java/com/ajeitai/backend/service/PrestadorService.java:170-175 | the job count is the number of finished bookings, and the gross and net figures are both the sum of their non-null prices |
| PrestadorServico.SomaValoresNaoNegativa | backend/src/main/java/com/ajeitai/backend/service/PrestadorService.java:170-173 | with no negative prices the month's total is not negative |
| PrestadorServico.PrestadorService.constructor | backend/src/main/java/com/ajeitai/backend/service/PrestadorService.java:31-37 | the service holds the given provider, booking and availability tables |
| PrestadorServico.PrestadorService.BuscarPorKeycloakId | backend/src/main/java/com/ajeitai/backend/service/PrestadorService.java:58-61 | the found provider is in the table with that Keycloak id; it fails, with "Prestador não encontrado para o usuário logado.", exactly when no provider has it |
| PrestadorServico.PrestadorService.Vincular | backend/src/main/java/com/ajeitai/backend/service/PrestadorService.java:39-56 | an already linked provider is returned and nothing is written; otherwise exactly one new provider row is appended under the next id and returned |
| PrestadorServico.PrestadorService.Atualizar | backend/src/main/java/com/ajeitai/backend/service/PrestadorService.java:63-87 | an unknown caller fails and writes nothing; otherwise the caller's row, and no other, is replaced by its update in place |
| PrestadorServico.PrestadorService.SalvarDisponibilidade | backend/src/main/java/com/ajeitai/backend/service/PrestadorService.java:108-124 | an unknown caller fails and changes nothing; otherwise the provider's slots are replaced as a whole by the new ones, none for a null or empty list, and no other provider's slots change |
| PrestadorServico.PrestadorService.DashboardDoMes | backend/src/main/java/com/ajeitai/backend/service/PrestadorService.java:160-176 | the figures are those of the month's finished bookings, and they come out the same for any ordering of the query's rows |
| Push.ApiBaseUrl | frontend/src/lib/push.ts:1-2 | the API base is the environment's URL when set and non-empty, otherwise the local default |
| Push.Padding | frontend/src/lib/push.ts:7 | between 0 and 3 '=' characters, exactly enough to make the length a multiple of 4, none when it already is |
| Push.ParaBase64 | frontend/src/lib/push.ts:7-8 | the padded text with every '-' as '+' and every '_' as '/', character by character; no URL-safe character remains |
| Push.JaPadrao | frontend/src/lib/push.ts:7-8 | text already standard and padded is left unchanged by the conversion |
| Push.SemPreenchimento | frontend/src/lib/push.ts:7 | partner of the padding: the longest prefix that does not end in '=', with only '=' after it |
| Push.ParaUrlSeguro | frontend/src/lib/push.ts:7-8 | partner of the conversion: padding stripped and '+' and '/' mapped back to '-' and '_' |
| Push.IdaEVolta | frontend/src/lib/push.ts:7-8 | round trip: a URL-safe key made standard is in the standard alphabet, and converting back yields the key |
| Push.ConversaoInjetiva | frontend/src/lib/push.ts:7-8 | two different URL-safe keys never give the same standard text |
| Push.Bytes | frontend/src/lib/push.ts:10-14 | one byte per character of the decoded string, each the character's code truncated to 8 bits as Uint8Array stores it |
| Push.BytesExatos | frontend/src/lib/push.ts:9-14 | for the codes below 256 that atob yields, every byte equals its character's code exactly |
| Push.Preencher | frontend/src/lib/push.ts:10-14 | the loop fills a new array whose contents are the bytes of the decoded string |
| Push.UrlBase64ToUint8Array | frontend/src/lib/push.ts:6-16 | fails exactly when atob rejects the standardised key; otherwise a fresh array holding the decoded bytes |
| Push.RequestNotificationPermission | frontend/src/lib/push.ts:34-51 | false without support; a granted or denied permission answers without prompting; only an undecided one prompts, and then the answer decides |
| Push.DecididaNaoPergunta | frontend/src/lib/push.ts:40-47 | a decided permission never prompts and is reported as it is, whatever the user would have answered |
| Push.SubscribeToPush | frontend/src/lib/push.ts:53-84 | no VAPID key means nothing happens; the POST to /push/subscribe carries the bearer token and the subscription JSON; any failure gives no subscription |
| Push.InitPushNotifications | frontend/src/lib/push.ts:109-117 | subscribes only when permission is granted and the service worker registered, and then exactly as subscribeToPush does |
| Push.RecusaNadaEnvia | frontend/src/lib/push.ts:109-111 | a user who denied notifications never reaches the subscription step |
| RlsSessao.ValorFinal | backend/src/main/java/com/ajeitai/backend/infra/db/RlsSessionAspect.java:49-78 | a variable's final value is one that some SET in the sequence gave it |
| RlsSessao.SessaoResultante | backend/src/main/java/com/ajeitai/backend/infra/db/RlsSessionAspect.java:49-78 | after the statements, admins hold only the role ADMIN, clients only CLIENTE and their own id, providers only PRESTADOR and their own id, and an unknown type nothing |
| RlsSessao.ResetsAntesDosSets | backend/src/main/java/com/ajeitai/backend/infra/db/RlsSessionAspect.java:49-52 | every RESET of the three variables comes before every SET |
| RlsSessao.IdDoCliente | backend/src/main/java/com/ajeitai/backend/infra/db/RlsSessionAspect.java:62 | the looked-up client id succeeds exactly when the client service finds the subject, with that client's id, else the service's not-found error |
| RlsSessao.IdDoPrestador | backend/src/main/java/com/ajeitai/backend/infra/db/RlsSessionAspect.java:73 | the same lookup on the provider service, with its not-found error |
| RlsSessao.Resolver | backend/src/main/java/com/ajeitai/backend/infra/db/RlsSessionAspect.java:60-64 | a cached id wins; only a missing one is looked up |
| RlsSessao.RlsSessionAspect.constructor | backend/src/main/java/com/ajeitai/backend/infra/db/RlsSessionAspect.java:29-34 | the aspect holds the two services it was given and has issued no statement |
| RlsSessao.RlsSessionAspect.IdDaSessao | backend/src/main/java/com/ajeitai/backend/infra/db/RlsSessionAspect.java:59-77 | clients use the cached or looked-up client id, providers the provider id; admins and unknown users always succeed |
| RlsSessao.RlsSessionAspect.ApplySessionVariables | backend/src/main/java/com/ajeitai/backend/infra/db/RlsSessionAspect.java:45-81 | the three resets, then the statements for the user type; a failed lookup stops after the resets and caches nothing; a found id is cached in the context |
| RlsSessao.RlsSessionAspect.SessaoDoCliente | backend/src/main/java/com/ajeitai/backend/infra/db/RlsSessionAspect.java:59-68 | the client branch issues the role CLIENTE and the id, and caches the id |
| RlsSessao.RlsSessionAspect.SessaoDoPrestador | backend/src/main/java/com/ajeitai/backend/infra/db/RlsSessionAspect.java:70-78 | the provider branch issues the role PRESTADOR and the id, and caches the id |
| RlsSessao.RlsSessionAspect.ApplyRlsContext | backend/src/main/java/com/ajeitai/backend/infra/db/RlsSessionAspect.java:36-43 | with no context nothing is issued and the method proceeds; otherwise it proceeds exactly when the session could be set; a failed lookup issues only the resets and caches nothing, and a successful one issues the resets then the statements for the user type and id, caching the looked-up id in the context |
| RlsSessao.CacheDispensaBusca | backend/src/main/java/com/ajeitai/backend/infra/db/RlsSessionAspect.java:60-64 | once a client id is cached, the session carries it whatever the tables say |
| SaqueServico.Resumo | backend/src/main/java/com/ajeitai/backend/service/SaqueService.java:41-57 | a missing wallet reads as balance 0 with no withdrawal; the next date is today or last + dias; the flag is balance > 0 and today not before that date |
| SaqueServico.Recusa | backend/src/main/java/com/ajeitai/backend/service/SaqueService.java:67-78 | a refusal happens exactly without a wallet, at balance <= 0, or within dias days of the last withdrawal, in that order of messages |
| SaqueServico.ResumoConcordaComSaque | backend/src/main/java/com/ajeitai/backend/service/SaqueService.java:50-51 | the summary's flag holds exactly when a withdrawal on the same day would be accepted |
| SaqueServico.CarenciaExata | backend/src/main/java/com/ajeitai/backend/service/SaqueService.java:74-78 | a withdrawal is accepted exactly dias days after the last and refused one day before, with the message naming the allowed date |
| SaqueServico.SaqueService.constructor | backend/src/main/java/com/ajeitai/backend/service/SaqueService.java:24-34 | the service holds the repositories and the cooldown it was given |
| SaqueServico.SaqueService.ObterResumo | backend/src/main/java/com/ajeitai/backend/service/SaqueService.java:39-58 | fails only for an unknown provider; otherwise the summary of the stored wallet, creating none |
| SaqueServico.SaqueService.SolicitarSaque | backend/src/main/java/com/ajeitai/backend/service/SaqueService.java:64-103 | an unknown provider or a refusal writes nothing; on success one PENDENTE withdrawal of the whole balance, the wallet at 0 with today as its last withdrawal, one DEBITO_SAQUE ledger line with fee 0 referencing it, and the ledger stays reconciled |
| WebhookAbacatePay.ExternalId | backend/src/main/java/com/ajeitai/backend/controller/AbacatePayWebhookController.java:57-61 | a reference is found only when data, billing and a non-empty product list are all present, and it is the first product's reference |
| WebhookAbacatePay.Rotear | backend/src/main/java/com/ajeitai/backend/controller/AbacatePayWebhookController.java:37-81 | no body means 400; a set, non-blank secret that differs means 401; only billing.paid with a reference is dispatched, "ag-" to the booking whose id parses from the rest and "sub-" to the subscription with the charge's id |
| WebhookAbacatePay.RotaDoAgendamento | backend/src/main/java/com/ajeitai/backend/controller/AbacatePayWebhookController.java:68-70 | round trip: the reference a booking charge is created with routes a paid event back to that same booking, for every long id |
| WebhookAbacatePay.RotaDaAssinatura | backend/src/main/java/com/ajeitai/backend/controller/AbacatePayWebhookController.java:72-77 | round trip: the reference a subscription charge is created with routes back to that subscription, with the charge's id |
| WebhookAbacatePay.SegredoEmBrancoNaoBloqueia | backend/src/main/java/com/ajeitai/backend/controller/AbacatePayWebhookController.java:41-46 | an unset or blank configured secret never answers 401 |
| WebhookAbacatePay.StatusSemAcao | backend/src/main/java/com/ajeitai/backend/controller/AbacatePayWebhookController.java:37-65 | a call that dispatches nothing answers 400 only without a body, 401 only when unauthorised, and 200 otherwise |
| WebhookAbacatePay.WebhookController.constructor | backend/src/main/java/com/ajeitai/backend/controller/AbacatePayWebhookController.java:25-27 | the controller holds the properties and the two services it was given |
| WebhookAbacatePay.WebhookController.HandleWebhook | backend/src/main/java/com/ajeitai/backend/controller/AbacatePayWebhookController.java:32-90 | undispatched calls change nothing and answer the route's status; a booking call answers 500 exactly when confirming raises, and leaves the tables as the gateway confirmation does (only an ACEITO booking with a payment changes, confirmed with its payment); a subscription call answers 500 exactly when the subscription is unknown and then changes nothing, and otherwise leaves the record ATIVA for thirty days with the provider's wallet ensured; the stores stay consistent |
| WebhookAbacatePay.WebhookController.RotaAgendamento | backend/src/main/java/com/ajeitai/backend/controller/AbacatePayWebhookController.java:67-71 | 500 exactly when the booking is missing or accepted without a payment, 200 otherwise; an ACEITO booking with a payment is confirmed together with the payment, and every other booking and payment is unchanged |
| WebhookAbacatePay.WebhookController.RotaAssinatura | backend/src/main/java/com/ajeitai/backend/controller/AbacatePayWebhookController.java:72-78 | 500 exactly when no subscription has the id, and then nothing changes; 200 otherwise, with the record ATIVA from today for thirty days, the payment time and billing id written and the provider's wallet ensured |
| Formatacao.Presentes | frontend/src/lib/utils.ts:15-19 | filter(Boolean) keeps only defined, non-empty values, and is empty exactly when no value is; with `PresentesDeUm` and `PresentesConcat` it is exactly the truthy values in their order |
| Formatacao.Campo | frontend/src/lib/utils.ts:13-19 | what one value contributes to the filter: itself when truthy, nothing otherwise |
| Formatacao.PresentesDeUm | frontend/src/lib/utils.ts:13-19 | one value is kept exactly when it is truthy |
| Formatacao.PresentesConcat | frontend/src/lib/utils.ts:13-19 | the filter of a concatenation is the concatenation of the filters, so the order of the kept values is that of the input |
| Formatacao.PresentesDoPar | frontend/src/lib/utils.ts:15-17 | a two-field group filters to its truthy fields, street before number and city before state |
| Formatacao.PresentesPorCampo | frontend/src/lib/utils.ts:13-19 | the four parts filter to the truthy ones among them, in order |
| Formatacao.JuntarNaoVazio | frontend/src/lib/utils.ts:15-20 | non-empty parts join to "" exactly when there are none |
| Formatacao.FormatEndereco | frontend/src/lib/utils.ts:9-21 | an absent address gives "" and a text address comes back unchanged; the object case is stated by `ObjetoPorCampos` |
| Formatacao.ObjetoPorCampos | frontend/src/lib/utils.ts:13-20 | for every address by fields, whichever fields are missing: the line is the street group (truthy street and number joined by ", "), the district, the city group (truthy city and state joined by " - ") and the postal code, each kept only when not empty, joined by ", " |
| Formatacao.GrupoVazio | frontend/src/lib/utils.ts:15-17 | a street or city group is "" exactly when both its fields are empty |
| Formatacao.ObjetoVazio | frontend/src/lib/utils.ts:12-20 | an address given by fields formats to "" exactly when all six fields are empty or undefined |
| Formatacao.TodosOsCampos | frontend/src/lib/utils.ts:14-20 | with every field present the line is street, number, district, city - state, code, in that order |
| Formatacao.EnderecoCompleto | frontend/src/lib/utils.test.ts:23-33 | the unit test's full address formats to "Rua A, 10, Centro, São Paulo - SP, 01000-000" |
| KeycloakCliente.PapelDe | frontend/src/lib/keycloak.ts:51-53 | a token role is known exactly when it names one of cliente, prestador, admin |
| KeycloakCliente.Filtrar | frontend/src/lib/keycloak.ts:51-54 | the known roles kept are exactly the known roles the list names, and never more than the list |
| KeycloakCliente.FiltrarConcat | frontend/src/lib/keycloak.ts:52-54 | filtering two lists one after the other is filtering each |
| KeycloakCliente.FiltrarSoConhecidos | frontend/src/lib/keycloak.ts:52-54 | a list of known roles only is kept whole and in order |
| KeycloakCliente.ExtractRoles | frontend/src/lib/keycloak.ts:47-55 | no roles without a token or realm roles; otherwise a role is returned exactly when the realm roles name it |
| KeycloakCliente.HasRole | frontend/src/lib/keycloak.ts:83-85 | true exactly when the token's realm roles name the role |
| KeycloakCliente.GetUserProfile | frontend/src/lib/keycloak.ts:57-81 | no profile exactly when there is no parsed token; id and e-mail default to ""; the first and last names follow the token's fallback chains; the roles are exactly those hasRole accepts |
| KeycloakCliente.SobrenomeDoNomeCompleto | frontend/src/lib/keycloak.ts:69-72 | without a family name the last name is the full name after its first space |
| KeycloakCliente.NomeSeparado | frontend/src/lib/keycloak.ts:62-72 | a token with only a full name "first rest" splits back into that first name and that last name |
| KeycloakCliente.PrimeiroNomeDoEmail | frontend/src/lib/keycloak.ts:63-68 | with no names and no username the first name is the e-mail's part before '@' |
| KeycloakCliente.Configurar | frontend/src/lib/keycloak.ts:12-16 | each option is its environment variable when set and non-empty, else the fixed default; none is empty |
| KeycloakCliente.Iniciar | frontend/src/lib/keycloak.ts:28-32 | the client is started with login-required, PKCE S256 and no login iframe |
| KeycloakCliente.KeycloakModulo.constructor | frontend/src/lib/keycloak.ts:3-4 | a page starts with no client and no initialisation |
| KeycloakCliente.KeycloakModulo.GetKeycloak | frontend/src/lib/keycloak.ts:6-20 | outside a browser an error and nothing built; inside, the client built on the first call and returned unchanged afterwards |
| KeycloakCliente.KeycloakModulo.InitKeycloak | frontend/src/lib/keycloak.ts:26-35 | the first call's initialisation is kept and returned to every later call |
| KeycloakCliente.KeycloakModulo.DuasVezes | frontend/src/lib/keycloak.ts:22-35 | two loads share one client and one initialisation, built from the first load's environment |
| Texto.SplitVazio | backend/src/main/java/com/ajeitai/backend/infra/web/RateLimitFilter.java:85 | a split comes back empty exactly when the text is made of the separator alone; otherwise its first piece is the text before the first separator |
| Texto.JuntarPedacos | frontend/src/lib/keycloak.ts:71 | splitting at a character and joining back with it gives the original text |
| Texto.DepoisDoPrimeiro | frontend/src/lib/keycloak.ts:71 | the pieces after the first, joined back, are the text after the first separator |
| Texto.Trim | backend/src/main/java/com/ajeitai/backend/infra/web/IdempotencyFilter.java:62 | trimming yields a slice with no character up to U+0020 at either end, and every character outside the slice is up to U+0020: the longest such slice |
| Texto.FimDaFatia | backend/src/main/java/com/ajeitai/backend/infra/web/IdempotencyFilter.java:62 | cutting a prefix `r` of a suffix `t` of `s` leaves `r` a slice of `s`, and whatever `t` has after `r` is what `s` has after that slice |

## Left out

- LimiteRequisicoes.RateLimitFilter.DoFilterInternal: it files a request whose `X-Forwarded-For` header is non-blank and made of commas only under the remote address, which is the corrected id of the Findings row. The source throws there, before its `try`, so that request fails with an unhandled exception and no counter moves. On every other header the two agree (`LimiteRequisicoes.ClientIdCorrigido`).
- Concurrency: the service has no lock, so booking creation is modelled as one sequential step. The per-request `ThreadLocal` holder is a single cell (`ContextoUsuario.UserContextHolder`).
- The payment gateway's HTTP exchange and Abacate Pay's wire format: `AbacatePay` shapes the request, and the gateway's answer is a parameter that may be absent.
- `createSubscriptionBilling`: `AssinaturaService` calls it, but the gateway class does not define it. It is a function parameter from the external reference and the amount to an answer that may be absent.
- Broker messaging and push delivery. The event publisher, the notification listener, and the push and chat messages that `AgendamentoService` sends are fire-and-forget calls that the model does not issue.
- Floating point and geography. Latitudes and longitudes are opaque. The haversine distance is a parameter of the catalogue, and average ratings are abstract ordered values.
- Redis expiry in the idempotency and rate-limit filters: their stores are maps without time. A counter is never reset by a TTL, and a processing marker is never dropped by one.
- The clock, UUIDs, and the `atob`, push-manager and `fetch` calls of the web client are parameters. `registerServiceWorker` and `unsubscribeFromPush` are not modelled. They only call browser APIs, and `initPushNotifications` takes the registration as a parameter.
- `Tempo`: dates are days and instants are seconds from 1970-01-01, in the server's local time. Time zones, daylight-saving shifts and sub-second precision are not modelled. The proleptic Gregorian calendar is modelled (`CivilDeDias`, `DiasDeCivil`), and the provider dashboard computes its month limits from it. The two conversions are not proved to be inverses.
- Numeros.ParseLong: it accepts only the ASCII digits 0-9. `Long.parseLong` also accepts every other Unicode decimal digit (Arabic-Indic, Devanagari, full-width and the rest), because it reads digits with `Character.digit`. Encoding the Unicode digit table is not part of this model.
- WebhookAbacatePay.Rotear: it answers `ExternalIdInvalido` and dispatches nothing for a reference such as "ag-" followed by non-ASCII decimal digits, because it parses with `Numeros.ParseLong`. The source parses that reference and confirms the booking it names. References printed by the system itself are ASCII (`RotaDoAgendamento`, `RotaDaAssinatura`).
- `@Cacheable` on `listarPrestadores` and `buscarDetalhe`: the model computes the catalogue afresh on every call, where the source can serve a cached, stale answer until the cache is evicted.
- `Texto`: case mapping covers the ASCII letters and the Latin-1 letters used in Portuguese, not all of Unicode. There is no normalisation.
- S3-compatible and Magalu storage are SDK and HTTP wrappers, so only the local file-system backend is modelled, with the file system as a map from paths to file contents. Directories are not entries of that map, so a key that names a directory reads as missing, where the source would hand back a non-readable resource. Its `IOException` paths are not modelled.
- `Endereco.java` is not part of this model. Updating an address is taken as a field-wise merge in which the fields the request sets win (`Dominio.Mesclar`).
- The enum files for booking, payment and subscription status, payment method and user type are not part of this model. Their values are taken from how the services use them.
- The query for the most recent active subscription sorts one without an end date first (`AssinaturaServico.NaoDepois`), as PostgreSQL orders nulls in a descending sort. JPA leaves that order to the database.
- Operations outside the modelled core:
  - `AgendamentoService.listarPorCliente`;
  - `SaqueService.listarSaques`;
  - `PrestadorService.atualizarAvatar`, `listarSolicitacoes`, `listarDisponibilidade` and the document operations;
  - `cn` in `utils.ts`;
  - the admin reports;
  - the HTTP controllers other than the booking, listing and webhook controllers;
  - Spring security configuration.

  They are repository reads, framework wiring or class-name merging, with no rule of their own.
- The chat service is a separate program built around websockets and Redis publish/subscribe, and is not modelled.
- The web client's pages are not modelled. Their "valorHora" sort key reaches `comparatorForOrderBy` and sorts by distance there (`Catalogo.ValorHoraOrdenaPorDistancia`).

## Findings

| source | as written | input that shows it | evidently intended | confidence | as-written member | corrected member |
|---|---|---|---|---|---|---|
| backend/src/main/java/com/ajeitai/backend/infra/web/RateLimitFilter.java:85 | `xff.split(",")[0]` indexes the split of a non-blank `X-Forwarded-For` header. Java's `split` drops trailing empty strings, so a header of commas only gives an empty array, and the index throws `ArrayIndexOutOfBoundsException` | header `X-Forwarded-For: ,` | fall back to the remote address when the header names no client | not executed | LimiteRequisicoes.SoVirgulasFalha | LimiteRequisicoes.ClientId |
