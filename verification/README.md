# Data controllers, currency quotes and the pre-save validation gate

This project models three pieces of decision logic from the `Test` web API
(ASP.NET Core, Entity Framework Core) and proves what each one does:

- **The generic CRUD controller** (`AbstractDataEntityController<TEntity, TDto, TId>`).
  Every action hands its arguments to the stored-data service and turns what
  the service does into an HTTP result: a value, a `null`, a
  `ValidationException`, a `KeyNotFoundException` or some other exception.
  Two actions refuse a request before the service is reached. `Delete` refuses
  the default identifier and `Update` refuses a missing body. `Update`
  overwrites the body's identifier with the one from the route. The service is
  a `StoredDataService` object. It is built from one function per operation,
  which gives the operation's outcome for each argument. Each action also
  returns, as a ghost out-parameter, the call it made into the service (or
  `None` if it made none). Identifiers are `int`, as in `UserController`, the
  repository's one instantiation, so `default(TId)` is `0`.
- **Currency strategy dispatch** (`CurrencyQueryStrategyFactory`) and the quote
  endpoint (`CotizacionController.Get`). The factory builds its three
  strategies once, in its constructor. It upper-cases the requested code and
  picks the dollar, peso or real strategy, or `null` for any other code.
  `Get` fetches the quote through the chosen strategy. An unknown code, a
  `null` code or a failing fetch all give 401 Unauthorized. Strategies are
  object identities. The fetch is a parameter that gives each strategy's
  outcome at the time of the request.
- **The pre-save validation gate** (`DbContext.SaveChanges`). It validates the
  entity of every Added or Modified change-tracker entry, in order, and throws
  a message-less `ValidationException` at the first invalid one. Only when all
  are valid does Entity Framework's own save run. Its count is returned, or
  its exception escapes. The validator and the base save are functions the
  context is built from. After a successful save, Added and Modified entries
  become Unchanged and Deleted entries are no longer tracked.

Files: `outcomes.dfy` (`Option`, the exceptions, `Outcome`),
`action_results.dfy` (HTTP results and their status codes),
`data_entity_controller.dfy`, `currency.dfy`, `cotizacion_controller.dfy`,
`db_context.dfy`.

An unexpected failure is answered with 400 by `Search` and with 404 by
`GetAllIds` (`DataControllers.UnexpectedFailureStatus`).

## Model

| member | source | states |
|---|---|---|
| `DataControllers.DataEntityController.New` | Test/Controllers/Data/AbstractDataEntityController.cs:35 | a null service is refused with ArgumentNullException("service"); any other service is stored in a new controller |
| `DataControllers.DataEntityController.constructor` | Test/Controllers/Data/AbstractDataEntityController.cs:35 | the controller keeps the service it is given |
| `DataControllers.NotFoundIfNull` | Test/Controllers/Data/AbstractDataEntityController.cs:51-53 | for GetAll and Get: NotFound exactly when the service returns null; Ok carrying the service's value exactly when it returns one; a service exception is not caught and escapes unchanged |
| `DataControllers.DataEntityController.GetAll` | Test/Controllers/Data/AbstractDataEntityController.cs:48-54 | the service's RetrieveAll receives a null base query, then search, offset, limit, orderBy, orderAsc in that order; the result is NotFoundIfNull of its outcome |
| `DataControllers.DataEntityController.Get` | Test/Controllers/Data/AbstractDataEntityController.cs:63-68 | the service's Retrieve receives the id; the result is NotFoundIfNull of its outcome |
| `DataControllers.AddResponse` | Test/Controllers/Data/AbstractDataEntityController.cs:80-93 | Ok(value) exactly when the service returns; every exception is BadRequest; a ValidationException always carries its `Message` (the exception's own text, or .NET's default text when it was raised without one) and any other exception carries none; never NotFound |
| `DataControllers.DataEntityController.Add` | Test/Controllers/Data/AbstractDataEntityController.cs:78-94 | the body, null included, reaches the service unchanged; the result is AddResponse of the service's outcome |
| `DataControllers.UpdateResponse` | Test/Controllers/Data/AbstractDataEntityController.cs:109-126 | Ok(value) exactly when the service returns; NotFound exactly on KeyNotFoundException; BadRequest on every other exception; a ValidationException always carries its `Message` (its own text or .NET's default text) and any other exception carries none |
| `DataControllers.DataEntityController.Update` | Test/Controllers/Data/AbstractDataEntityController.cs:105-127 | a null body gives BadRequest("No data was provided.") and the service is not called; otherwise the body's Id becomes the route id, its other fields are unchanged, the service receives (route id, fields), and the result is UpdateResponse of its outcome |
| `DataControllers.DeleteResponse` | Test/Controllers/Data/AbstractDataEntityController.cs:140-142 | Ok exactly when the service returns true; NotFound exactly when it returns false or throws KeyNotFoundException; any other exception escapes unchanged |
| `DataControllers.DataEntityController.Delete` | Test/Controllers/Data/AbstractDataEntityController.cs:136-143 | id 0 (default(int)) gives BadRequest and the service is not called; any other id reaches the service, and the result is DeleteResponse of its outcome |
| `DataControllers.SearchResponse` | Test/Controllers/Data/AbstractDataEntityController.cs:154-165 | Ok(value) exactly when the service returns a non-null value; a null result or any exception gives a bare BadRequest |
| `DataControllers.DataEntityController.Search` | Test/Controllers/Data/AbstractDataEntityController.cs:152-166 | the filters reach the service's paged RetrieveAll unchanged; the result is SearchResponse of its outcome |
| `DataControllers.GetAllIdsResponse` | Test/Controllers/Data/AbstractDataEntityController.cs:178-189 | Ok(ids) exactly when the service returns a non-null value; a null result or any exception gives NotFound |
| `DataControllers.DataEntityController.GetAllIds` | Test/Controllers/Data/AbstractDataEntityController.cs:175-190 | the filters reach the service's GetAllIds unchanged; the result is GetAllIdsResponse of its outcome |
| `DataControllers.UnexpectedFailureStatus` | Test/Controllers/Data/AbstractDataEntityController.cs:154-189 | an exception other than ValidationException and KeyNotFoundException is 400 for Add, Update and Search, 404 for GetAllIds, and escapes Get, GetAll and Delete |
| `DataControllers.ValidationFailureStatus` | Test/Controllers/Data/AbstractDataEntityController.cs:85-88 | a ValidationException is BadRequest with its `Message` in Add and Update, even when raised without one; Search gives a bare BadRequest and GetAllIds gives NotFound |
| `DataControllers.ValidationDistinctFromUnexpected` | Test/Controllers/Data/AbstractDataEntityController.cs:85-93 | in Add and Update, the answer to a ValidationException, with or without a message of its own, differs from the answer to any unexpected exception |
| `Currency.ToUpper` | Test/Currency/CurrencyQueryStrategyFactory.cs:24 | same length as the code, and each character is replaced by its ASCII upper-case form; no lower-case ASCII letter remains |
| `Currency.ToUpperEqualIffEqualIgnoringCase` | Test/Currency/CurrencyQueryStrategyFactory.cs:24 | two codes have the same upper-case form if and only if they differ only in letter case |
| `Currency.CurrencyQueryStrategyFactory.constructor` | Test/Currency/CurrencyQueryStrategyFactory.cs:14-20 | the three strategies are new objects (of three different classes, so never the same object), fixed for the factory's lifetime; the dollar strategy holds the factory's client |
| `Currency.CurrencyQueryStrategyFactory.GetCurrencyQueryStrategy` | Test/Currency/CurrencyQueryStrategyFactory.cs:22-31 | a null code throws NullReferenceException; the dollar, peso or real strategy exactly when the upper-cased code is "DOLAR", "PESO" or "REAL"; null exactly when it is none of them |
| `Currency.CurrencyQueryStrategyFactory.LookupIgnoresCase` | Test/Currency/CurrencyQueryStrategyFactory.cs:24-28 | two codes that differ only in letter case select the same strategy object |
| `Currency.CurrencyQueryStrategyFactory.LookupExamples` | Test/Currency/CurrencyQueryStrategyFactory.cs:24-29 | "dolar" and "DOLAR" select the dollar strategy, "Peso" the peso one, "real" the real one, and "yen" none |
| `Cotizacion.CotizacionController.constructor` | Test/Controllers/CotizacionController.cs:18-22 | the controller builds a new factory around its client |
| `Cotizacion.CotizacionController.Get` | Test/Controllers/CotizacionController.cs:25-35 | the answer is Content or Unauthorized; Content exactly when the code is known (in any letter case) and its strategy's fetch returns, and then the text is the fetched quote, unchanged |
| `Cotizacion.CotizacionController.NullCurrencyIsUnauthorized` | Test/Controllers/CotizacionController.cs:27-33 | a null code gives Unauthorized, whatever the fetch would do |
| `Cotizacion.CotizacionController.UnknownCurrencyIsUnauthorized` | Test/Controllers/CotizacionController.cs:29-33 | a code whose upper-case form is not known gives Unauthorized |
| `Cotizacion.CotizacionController.FetchFailureIsUnauthorized` | Test/Controllers/CotizacionController.cs:30-33 | a known code whose fetch throws gives Unauthorized |
| `Cotizacion.CotizacionController.DolarQuoteIsPassedThrough` | Test/Controllers/CotizacionController.cs:29-30 | "dolar" in any letter case answers with exactly the text the dollar strategy fetched |
| `DataAccess.PendingWrites` | Test/DAL/DbContext.cs:48-50 | the entities of the Added and Modified entries; never more than there are entries |
| `DataAccess.PendingWritesSingleton` | Test/DAL/DbContext.cs:48-50 | one entry contributes its entity exactly when its state is Added or Modified |
| `DataAccess.PendingWritesAppend` | Test/DAL/DbContext.cs:48-50 | the pending writes of two runs of entries are those of the first followed by those of the second, so change-tracker order is kept |
| `DataAccess.RejectsIffInvalidPendingWrite` | Test/DAL/DbContext.cs:48-58 | the save is rejected if and only if some Added or Modified entry holds an invalid entity |
| `DataAccess.UnvalidatedEntryCannotReject` | Test/DAL/DbContext.cs:48-50 | inserting an Unchanged, Deleted or Detached entry anywhere changes neither the entities validated nor whether the save is rejected |
| `DataAccess.DbContext.constructor` | Test/DAL/DbContext.cs:15-18 | the context holds the given validator, base save and change-tracker entries |
| `DataAccess.DbContext.SaveChanges` | Test/DAL/DbContext.cs:46-61 | when some pending write is invalid: throws ValidationException with no message, validation stopped at the first invalid entity with every earlier one valid, the base save did not run, and the entries are unchanged; otherwise every pending write was validated and the result is exactly the base save's outcome, its count or its exception; the changes are accepted only when the base save returns |
| `DataAccess.AcceptedChangesHasNoPendingWrites` | Test/DAL/DbContext.cs:46-61 | after a successful save no entry is left to validate, so a second save cannot be rejected |

## Left out

- The paged search and filter engine (`BaseStoredDataService`, `PagedSearchAndFilterInfo`, `PagedResult`) and the repositories: their source is not part of this model. The service is modelled only by the outcome each operation gives for each argument. Its search, paging and total count are not specified, and its request and result types are opaque.
- `DataControllers.DataEntityController.New`: a Dafny constructor cannot throw, so the constructor's null guard is a static method that returns the `ArgumentNullException` or a new controller. The constructor itself takes a non-null service.
- Generic identifiers: `TId` is `int`, the only instantiation (`UserController`), so `default(TId)` is `0`.
- `Currency.ToUpper`: upper-cases ASCII letters only. .NET's culture-sensitive `ToUpper` also maps some non-ASCII letters onto ASCII ones, so under some cultures a code such as "peſo" would also select a strategy.
- The `ValidationException` thrown by `SaveChanges` is built without a message, so `ex.Message` is .NET's default text. The model keeps that text as an unspecified constant (`Outcomes.DefaultMessage`) and does not fix its wording.
- `DataAccess.DbContext.SaveChanges`: the `validationResults` list that the validator fills is never read, so it is not modelled. What Entity Framework's own `SaveChanges` writes to the database is left to the base-save function. The model covers only its count or exception and the accepted entry states afterwards (`AcceptedChanges`). Database-generated keys and concurrency tokens written back to entities are not modelled.
- Network I/O: the dollar strategy's HTTP request (`DolarRequest.GetDolar`) and the peso and real strategies (their sources are not part of this model) become the `fetch` parameter of `CotizacionController.Get`.
- Async/await scheduling, log4net logging, HTTP routing attributes, dependency-injection wiring (`DependenciesInitializer`), AutoMapper configuration (`EntityDtoMapper`), the plain model classes (`User`, `AbstractEntity`) and `DbContext.OnConfiguring`/`OnModelCreating`: framework plumbing or data without behaviour.
