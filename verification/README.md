# Fund subscription engine (BTG Pactual FPV demo), modelled in Dafny

The system manages one client account against a small catalog of investment
funds. The account holds a balance in Colombian pesos, the positions the
client holds (one per fund), the notification preference and contact, and an
append-only transaction history. The engine subscribes the client to a fund
after four checks, in order: the fund exists, the amount reaches the fund's
minimum, the balance covers the amount, and the fund is not already held. A
cancellation finds the held position, checks that the fund is still in the
catalog, credits the position's amount back, removes the position and records
a cancellation. At start-up the catalog is seeded with five fixed funds, but
only when it is empty.

Layout:

- `wrappers.dfy`: `Option` and `Result`.
- `modelo.dfy` (module `Modelo`): the records `Fondo`, `FondoActivo`,
  `Transaccion`, `SuscripcionRequest`, the `Error` datatype (one case per
  exception the engine throws), the account value `Cuenta` with its invariant
  and the conserved quantity `Total` (balance plus held amounts), and the
  class `Cliente`, the account that the service updates in place.
- `catalogo.dfy` (module `Catalogo`): the fund store `FondoRepository`, a
  class over a sequence of funds kept in store order, with the map view
  `PorId` from fund id to fund; saving a fund replaces the stored fund with
  the same id or appends it.
- `inicializacion.dfy` (module `Inicializacion`): the five seed funds and
  `DataInitializationService.Run`.
- `suscripciones.dfy` (module `Suscripciones`): the engine on account
  values. `Suscribir` and `Cancelar` say what an operation does to a
  `Cuenta`; the lemmas prove the order of the checks, the exact effect of a
  success, conservation of `Total`, preservation of the invariant and the
  subscribe-then-cancel round trip.
- `servicio.dfy` (module `Servicio`): the class `FondoService`, whose
  methods mutate the stored `Cliente` field by field as the service does, and
  whose contracts tie the new account value to `Suscribir` / `Cancelar` of
  the old one, with "nothing changes" on every failure path.

Amounts are integers, so every balance equality is exact. Timestamps and
transaction ids, which the service takes from the clock and from a random
UUID, are parameters of the operations. A subscription reads the clock twice,
once for the new position and once for its transaction entry, so it takes two
timestamps that need not be equal.

In the code, the duplicate-subscription and below-minimum failures are both
`IllegalArgumentException` (the model keeps them apart as `YaSuscrito` and
`MontoMinimo`, since the order of the checks decides which one is raised);
transaction types are `SUSCRIPCION` and `CANCELACION`; the client lookup runs
before the fund lookup in a subscription; and when no client is stored a
subscription works on a freshly created client (stored only if the
subscription succeeds) while cancellation and the history query fail with
`ClienteNotFound`.

## Model

| member | source | states |
|---|---|---|
| `Modelo.Cliente.constructor` | fpv-btg-pactual-backend/src/main/java/com/btgpactual/fondos/gestionfondosclientes/model/Cliente.java:16-24 | a new client has the given id and balance, no positions, no history, no preference or contact |
| `Modelo.SumaMontosSinIndice` | fpv-btg-pactual-backend/src/main/java/com/btgpactual/fondos/gestionfondosclientes/service/FondoService.java:80-81 | removing the position at index k lowers the sum of held amounts by exactly that position's amount |
| `Modelo.UnoPorFondoSinIndice` | fpv-btg-pactual-backend/src/main/java/com/btgpactual/fondos/gestionfondosclientes/service/FondoService.java:81 | removing a position keeps at most one position per fund |
| `Catalogo.UpsertAllNuevos` | fpv-btg-pactual-backend/src/main/java/com/btgpactual/fondos/gestionfondosclientes/service/DataInitializationService.java:50 | saving funds with distinct ids none of which is stored appends them to the store in list order |
| `Catalogo.UpsertAllPreserva` | fpv-btg-pactual-backend/src/main/java/com/btgpactual/fondos/gestionfondosclientes/service/DataInitializationService.java:50 | saving a list keeps stored ids distinct and stores nothing but the old funds and the saved ones |
| `Catalogo.UpsertDistintos` | fpv-btg-pactual-backend/src/main/java/com/btgpactual/fondos/gestionfondosclientes/service/DataInitializationService.java:50 | saving one fund keeps stored ids distinct |
| `Catalogo.UpsertNuevo` | fpv-btg-pactual-backend/src/main/java/com/btgpactual/fondos/gestionfondosclientes/service/DataInitializationService.java:50 | saving a fund whose id is not stored appends it at the end |
| `Catalogo.FondoRepository.PorId` | fpv-btg-pactual-backend/src/main/java/com/btgpactual/fondos/gestionfondosclientes/model/Fondo.java:13-19 | the catalog as a map: every key maps to the stored fund with that id, and every stored fund is reachable by its id |
| `Catalogo.FondoRepository.FindById` | fpv-btg-pactual-backend/src/main/java/com/btgpactual/fondos/gestionfondosclientes/service/FondoService.java:137-140 | the result is a stored fund with the requested id, and absence means no stored fund has that id |
| `Catalogo.FondoRepository.Count` | fpv-btg-pactual-backend/src/main/java/com/btgpactual/fondos/gestionfondosclientes/service/DataInitializationService.java:31 | the number of stored funds |
| `Catalogo.FondoRepository.FindAll` | fpv-btg-pactual-backend/src/main/java/com/btgpactual/fondos/gestionfondosclientes/service/FondoService.java:116 | all stored funds in store order |
| `Catalogo.FondoRepository.SaveAll` | fpv-btg-pactual-backend/src/main/java/com/btgpactual/fondos/gestionfondosclientes/service/DataInitializationService.java:50 | the store becomes the old store with each fund saved in turn, and ids stay distinct |
| `Inicializacion.FondosIniciales` | fpv-btg-pactual-backend/src/main/java/com/btgpactual/fondos/gestionfondosclientes/service/DataInitializationService.java:42-48 | exactly five funds with ids "1" to "5" in that order, distinct ids, category FPV or FIC and a positive minimum each |
| `Inicializacion.SembrarResultado` | fpv-btg-pactual-backend/src/main/java/com/btgpactual/fondos/gestionfondosclientes/service/DataInitializationService.java:31-50 | seeding an empty store leaves exactly the five funds in list order; a non-empty store is left as it was |
| `Inicializacion.SembrarIdempotente` | fpv-btg-pactual-backend/src/main/java/com/btgpactual/fondos/gestionfondosclientes/service/DataInitializationService.java:31-34 | running the seeding a second time changes nothing |
| `Inicializacion.SembrarPreserva` | fpv-btg-pactual-backend/src/main/java/com/btgpactual/fondos/gestionfondosclientes/service/DataInitializationService.java:42-48 | seeding keeps ids distinct and every minimum positive |
| `Inicializacion.DataInitializationService.Run` | fpv-btg-pactual-backend/src/main/java/com/btgpactual/fondos/gestionfondosclientes/service/DataInitializationService.java:30-35 | the catalog after the run is the seeding of the catalog before it, with ids still distinct |
| `Inicializacion.DataInitializationService.InicializarFondos` | fpv-btg-pactual-backend/src/main/java/com/btgpactual/fondos/gestionfondosclientes/service/DataInitializationService.java:41-51 | the five funds are saved in one call, in list order |
| `Suscripciones.Suscrito` | fpv-btg-pactual-backend/src/main/java/com/btgpactual/fondos/gestionfondosclientes/service/FondoService.java:154-155 | true exactly when some held position is in the given fund |
| `Suscripciones.BuscarActivo` | fpv-btg-pactual-backend/src/main/java/com/btgpactual/fondos/gestionfondosclientes/service/FondoService.java:72-75 | the index of the first position in the fund, or none exactly when no position is in it |
| `Suscripciones.RemoverPrimero` | fpv-btg-pactual-backend/src/main/java/com/btgpactual/fondos/gestionfondosclientes/service/FondoService.java:81 | when the element occurs the list loses exactly one element, otherwise it is left alone |
| `Suscripciones.RemoverPrimeroMultiset` | fpv-btg-pactual-backend/src/main/java/com/btgpactual/fondos/gestionfondosclientes/service/FondoService.java:81 | removal takes away exactly one copy of the element and keeps every other element |
| `Suscripciones.RemoverPrimeroEnIndice` | fpv-btg-pactual-backend/src/main/java/com/btgpactual/fondos/gestionfondosclientes/service/FondoService.java:72-81 | removing the position that the first-match search found removes exactly that index |
| `Suscripciones.ValidarSuscripcion` | fpv-btg-pactual-backend/src/main/java/com/btgpactual/fondos/gestionfondosclientes/service/FondoService.java:142-159 | passes exactly when minimum <= amount <= balance and the fund is not held; otherwise the first failing check in the order minimum, balance, duplicate gives the error |
| `Suscripciones.SuscribirResultado` | fpv-btg-pactual-backend/src/main/java/com/btgpactual/fondos/gestionfondosclientes/service/FondoService.java:42-49 | a missing fund fails with FondoNotFound before anything else; then the checks fail in order; success exactly when all four checks pass |
| `Suscripciones.SuscribirExito` | fpv-btg-pactual-backend/src/main/java/com/btgpactual/fondos/gestionfondosclientes/service/FondoService.java:161-184 | on success the balance drops by exactly the amount, one position with the fund id, name, amount and the position timestamp is appended, preference and contact are overwritten, one SUSCRIPCION entry with the transaction timestamp is appended after the untouched history, and balance plus held amounts is conserved |
| `Suscripciones.SuscribirPreservaInvariante` | fpv-btg-pactual-backend/src/main/java/com/btgpactual/fondos/gestionfondosclientes/service/FondoService.java:149-172 | a successful subscription keeps the balance non-negative, at most one position per fund and every held amount positive |
| `Suscripciones.CancelarResultado` | fpv-btg-pactual-backend/src/main/java/com/btgpactual/fondos/gestionfondosclientes/service/FondoService.java:72-78 | cancel fails with SuscripcionNotFound when no position is in the fund, then with FondoNotFound when the fund is not in the catalog, and succeeds exactly otherwise |
| `Suscripciones.CancelarExito` | fpv-btg-pactual-backend/src/main/java/com/btgpactual/fondos/gestionfondosclientes/service/FondoService.java:80-90 | cancelling the first position held in the fund credits its amount, removes exactly that position, appends one CANCELACION entry with the catalog name, and conserves balance plus held amounts |
| `Suscripciones.CancelarPreservaInvariante` | fpv-btg-pactual-backend/src/main/java/com/btgpactual/fondos/gestionfondosclientes/service/FondoService.java:80-81 | a successful cancel keeps the account invariant |
| `Suscripciones.SuscribirLuegoCancelar` | fpv-btg-pactual-backend/src/main/java/com/btgpactual/fondos/gestionfondosclientes/service/FondoService.java:80-90 | subscribing and then cancelling the same fund restores the balance and the held positions, keeps the preference and contact the subscription set, and leaves both entries, each with its own timestamp, in the history |
| `Suscripciones.EscenariosSuscripcion` | fpv-btg-pactual-backend/src/test/java/com/btgpactual/fondos/gestionfondosclientes/service/FondoServiceTest.java:65-107 | 500000 minus a 100000 subscription leaves 400000 and one position; 10000 is below the minimum; 800000 exceeds the balance; an absent fund is not found |
| `Suscripciones.EscenariosCancelacion` | fpv-btg-pactual-backend/src/test/java/com/btgpactual/fondos/gestionfondosclientes/service/FondoServiceTest.java:155-201 | cancelling a 100000 position from 500000 gives 600000 and no positions; no position gives SuscripcionNotFound; no fund gives FondoNotFound |
| `Servicio.FondoService.SuscribirseAFondo` | fpv-btg-pactual-backend/src/main/java/com/btgpactual/fondos/gestionfondosclientes/service/FondoService.java:41-56 | the stored client afterwards is the result of Suscribir on the old account; on failure the error is returned and the store and client are unchanged |
| `Servicio.FondoService.CancelarSuscripcion` | fpv-btg-pactual-backend/src/main/java/com/btgpactual/fondos/gestionfondosclientes/service/FondoService.java:65-98 | no stored client gives ClienteNotFound; otherwise the client afterwards is the result of Cancelar on the old account, or is unchanged with the error returned |
| `Servicio.FondoService.ObtenerHistorialTransacciones` | fpv-btg-pactual-backend/src/main/java/com/btgpactual/fondos/gestionfondosclientes/service/FondoService.java:104-109 | the stored client's history in recorded order (possibly empty), or ClienteNotFound |
| `Servicio.FondoService.ObtenerFondos` | fpv-btg-pactual-backend/src/main/java/com/btgpactual/fondos/gestionfondosclientes/service/FondoService.java:115-118 | the catalog in store order (possibly empty), each listed fund being the one its id looks up |
| `Servicio.FondoService.CrearClienteInicial` | fpv-btg-pactual-backend/src/main/java/com/btgpactual/fondos/gestionfondosclientes/service/FondoService.java:126-131 | a new client with the fixed id, balance 500000 and nothing else |
| `Servicio.FondoService.ObtenerCliente` | fpv-btg-pactual-backend/src/main/java/com/btgpactual/fondos/gestionfondosclientes/service/FondoService.java:133-136 | the stored client, or a new initial client that is not stored |
| `Servicio.FondoService.ObtenerFondo` | fpv-btg-pactual-backend/src/main/java/com/btgpactual/fondos/gestionfondosclientes/service/FondoService.java:137-140 | the catalog fund with the id, or FondoNotFound exactly when no catalog fund has it |
| `Servicio.FondoService.AplicarSuscripcion` | fpv-btg-pactual-backend/src/main/java/com/btgpactual/fondos/gestionfondosclientes/service/FondoService.java:161-173 | debits the amount, overwrites preference and contact, appends the new position, and changes nothing else |
| `Servicio.FondoService.RegistrarTransaccion` | fpv-btg-pactual-backend/src/main/java/com/btgpactual/fondos/gestionfondosclientes/service/FondoService.java:175-184 | appends one SUSCRIPCION entry with the fund name and amount and changes nothing else |

## Left out

- Notifications (`NotificationService`): e-mail sending, the logged SMS and the message formatting are I/O; the call after the save never changes the account, so the model has no step there.
- The HTTP controller and the mapping of exceptions to status codes: transport plumbing.
- Exception messages: the `Error` cases carry the values the messages mention, not the formatted text.
- `ClienteRepository` (Mongo persistence of the client): modelled as a store holding at most the one client; `save` stores the same object and returns it.
- `FondoRepository` is Mongo persistence; it is modelled as an in-memory sequence of funds in which saving replaces the fund with the same id or appends. The order `findAll` returns is taken to be the store order.
- Floating-point amounts: amounts are whole pesos, so rounding of `Double` arithmetic is not modelled.
- Random transaction ids and wall-clock timestamps: they are parameters; each clock reading in the code is a parameter of its own.
- The request validation annotations (`@NotBlank`, `@Positive`): no precondition is placed on the amount; the positive catalog minima already make every held amount positive.
- The transactional boundary and concurrent requests: the operations are modelled as sequential steps on one account.
- Servicio.FondoService.ObtenerHistorialTransacciones: returns the history as a value; that the returned list is the live list of the stored client (aliasing) is not modelled.
