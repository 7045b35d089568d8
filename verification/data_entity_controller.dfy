/** The generic CRUD controller (`AbstractDataEntityController<TEntity, TDto, TId>`):
    each action hands its arguments to the stored-data service and turns what
    the service does into an HTTP result.  The service itself (the paged
    search engine, the repositories) is a collaborator whose behaviour is
    given, per argument, by the functions it is built from.  Identifiers are
    `int`, the one instantiation in the repository, so `default(TId)` is 0. */
module DataControllers {
  import opened Outcomes
  import opened ActionResults

  /** The search engine's request (`PagedSearchAndFilterInfo`), its result
      (`PagedResult<TDto>`) and the LINQ base query of `RetrieveAll`: the
      engine is not part of this model, so these values are only passed on. */
  type PagedSearchAndFilterInfo(==)
  type PagedResult<F>
  type BaseQuery(==)

  /** `default(TId)` for `TId = int`. */
  const DefaultId: int := 0

  /** The message `Update` answers a missing body with. */
  const NoDataMessage: string := "No data was provided."

  /** A transfer object: its identifier and the rest of its fields. */
  class Dto<F> {
    var Id: int
    var Fields: F

    constructor (id: int, fields: F)
      ensures Id == id && Fields == fields
    {
      Id := id;
      Fields := fields;
    }
  }

  /** The contents of a transfer object at the moment it is handed over. */
  datatype DtoValue<F> = DtoValue(id: int, fields: F)

  /** The arguments of `RetrieveAll(baseQuery, searchTerm, offset, limit, orderBy, orderAscending)`. */
  datatype RetrieveAllArgs = RetrieveAllArgs(
    baseQuery: Option<BaseQuery>,
    searchTerm: Option<string>,
    offset: int,
    limit: int,
    orderBy: Option<string>,
    orderAscending: bool)

  /** One call into the service, with the arguments it received. */
  datatype ServiceCall<F> =
    | RetrieveAllCall(args: RetrieveAllArgs)
    | RetrievePagedCall(filters: Option<PagedSearchAndFilterInfo>)
    | RetrieveCall(id: int)
    | CreateCall(dto: Option<DtoValue<F>>)
    | UpdateCall(body: DtoValue<F>)
    | DeleteCall(id: int)
    | GetAllIdsCall(filters: Option<PagedSearchAndFilterInfo>)

  /** `IStoredDataService<TEntity, TDto, TId>`: for every argument, what the
      service does when it is called with it.  A `None` result is `null`. */
  class StoredDataService<F> {
    const RetrieveAll: RetrieveAllArgs -> Outcome<Option<PagedResult<F>>>
    const RetrievePaged: Option<PagedSearchAndFilterInfo> -> Outcome<Option<PagedResult<F>>>
    const Retrieve: int -> Outcome<Option<DtoValue<F>>>
    const Create: Option<DtoValue<F>> -> Outcome<Option<DtoValue<F>>>
    const Update: DtoValue<F> -> Outcome<Option<DtoValue<F>>>
    const Delete: int -> Outcome<bool>
    const GetAllIds: Option<PagedSearchAndFilterInfo> -> Outcome<Option<seq<int>>>

    constructor (
      retrieveAll: RetrieveAllArgs -> Outcome<Option<PagedResult<F>>>,
      retrievePaged: Option<PagedSearchAndFilterInfo> -> Outcome<Option<PagedResult<F>>>,
      retrieve: int -> Outcome<Option<DtoValue<F>>>,
      create: Option<DtoValue<F>> -> Outcome<Option<DtoValue<F>>>,
      update: DtoValue<F> -> Outcome<Option<DtoValue<F>>>,
      delete: int -> Outcome<bool>,
      getAllIds: Option<PagedSearchAndFilterInfo> -> Outcome<Option<seq<int>>>)
      ensures RetrieveAll == retrieveAll && RetrievePaged == retrievePaged
      ensures Retrieve == retrieve && Create == create && Update == update
      ensures Delete == delete && GetAllIds == getAllIds
    {
      RetrieveAll, RetrievePaged, Retrieve := retrieveAll, retrievePaged, retrieve;
      Create, Update, Delete, GetAllIds := create, update, delete, getAllIds;
    }
  }

  /** What a transfer object holds when it is passed on; `null` is `None`. */
  function Snapshot<F>(dto: Dto?<F>): Option<DtoValue<F>>
    reads dto
  {
    if dto == null then None else Some(DtoValue(dto.Id, dto.Fields))
  }

  // ---------------------------------------------------------------------
  // What each action makes of the service's outcome.
  // ---------------------------------------------------------------------

  /** `GetAll` and `Get`: a `null` result is NotFound, any other result is
      returned with Ok, and an exception is not caught. */
  function NotFoundIfNull<T>(o: Outcome<Option<T>>): (r: Outcome<Response<T>>)
    ensures r.Threw? <==> o.Threw?
    ensures o.Threw? ==> r.error == o.error
    ensures r == Returned(NotFound) <==> o == Returned(None)
    ensures r.Returned? && r.value.Ok? <==> o.Returned? && o.value.Some?
    ensures r.Returned? && r.value.Ok? ==> r.value.body == o.value.value
  {
    match o
    case Threw(e) => Threw(e)
    case Returned(None) => Returned(NotFound)
    case Returned(Some(v)) => Returned(Ok(v))
  }

  /** `Add`: every exception is caught.  A ValidationException gives
      BadRequest with its `Message`, which is never `null` (an exception
      raised without one carries .NET's default text); any other exception
      gives a bare BadRequest; Add never answers NotFound. */
  function AddResponse<T>(o: Outcome<T>): (r: Response<T>)
    ensures r.Ok? <==> o.Returned?
    ensures r.Ok? ==> r.body == o.value
    ensures r.BadRequest? <==> o.Threw?
    ensures r.BadRequest? && o.error.ValidationException? ==> r.message == Some(MessageText(o.error.message))
    ensures r.BadRequest? && !o.error.ValidationException? ==> r.message == None
    ensures !r.NotFound?
  {
    match o
    case Returned(v) => Ok(v)
    case Threw(ValidationException(m)) => BadRequest(Some(MessageText(m)))
    case Threw(_) => BadRequest(None)
  }

  /** `Update` once the service has been called: as `Add`, except that a
      KeyNotFoundException gives NotFound. */
  function UpdateResponse<T>(o: Outcome<T>): (r: Response<T>)
    ensures r.Ok? <==> o.Returned?
    ensures r.Ok? ==> r.body == o.value
    ensures r.NotFound? <==> o == Threw(KeyNotFoundException)
    ensures r.BadRequest? <==> o.Threw? && o.error != KeyNotFoundException
    ensures r.BadRequest? && o.error.ValidationException? ==> r.message == Some(MessageText(o.error.message))
    ensures r.BadRequest? && !o.error.ValidationException? ==> r.message == None
  {
    match o
    case Returned(v) => Ok(v)
    case Threw(ValidationException(m)) => BadRequest(Some(MessageText(m)))
    case Threw(KeyNotFoundException) => NotFound
    case Threw(_) => BadRequest(None)
  }

  /** `Delete` once the service has been called: Ok exactly when the service
      answers true; false and KeyNotFoundException both give NotFound; any
      other exception is not caught. */
  function DeleteResponse(o: Outcome<bool>): (r: Outcome<Response<()>>)
    ensures r == Returned(OkEmpty) <==> o == Returned(true)
    ensures r == Returned(NotFound) <==> o == Returned(false) || o == Threw(KeyNotFoundException)
    ensures r.Threw? <==> o.Threw? && o.error != KeyNotFoundException
    ensures r.Threw? ==> r.error == o.error
  {
    match o
    case Returned(true) => Returned(OkEmpty)
    case Returned(false) => Returned(NotFound)
    case Threw(KeyNotFoundException) => Returned(NotFound)
    case Threw(e) => Threw(e)
  }

  /** `Search`: a `null` result is turned into an exception, and every
      exception into a bare BadRequest; otherwise the result is returned. */
  function SearchResponse<T>(o: Outcome<Option<T>>): (r: Response<T>)
    ensures r.Ok? <==> o.Returned? && o.value.Some?
    ensures r.Ok? ==> r.body == o.value.value
    ensures !r.Ok? ==> r == BadRequest(None)
  {
    var attempt: Outcome<T> :=
      match o
      case Returned(None) => Threw(OtherException("Unexpected error."))
      case Returned(Some(v)) => Returned(v)
      case Threw(e) => Threw(e);
    match attempt
    case Returned(v) => Ok(v)
    case Threw(_) => BadRequest(None)
  }

  /** `GetAllIds`: as `Search`, but every failure is NotFound. */
  function GetAllIdsResponse<T>(o: Outcome<Option<T>>): (r: Response<T>)
    ensures r.Ok? <==> o.Returned? && o.value.Some?
    ensures r.Ok? ==> r.body == o.value.value
    ensures !r.Ok? ==> r == NotFound
  {
    var attempt: Outcome<T> :=
      match o
      case Returned(None) => Threw(OtherException("Unexpected error."))
      case Returned(Some(v)) => Returned(v)
      case Threw(e) => Threw(e);
    match attempt
    case Returned(v) => Ok(v)
    case Threw(_) => NotFound
  }

  // ---------------------------------------------------------------------
  // The controller.
  // ---------------------------------------------------------------------

  class DataEntityController<F> {
    const Service: StoredDataService<F>

    constructor (service: StoredDataService<F>)
      ensures Service == service
    {
      Service := service;
    }

    /** The constructor's guard: a `null` service is refused with an
        ArgumentNullException, any other is stored. */
    static method New(service: StoredDataService?<F>) returns (r: Outcome<DataEntityController<F>>)
      ensures r.Threw? <==> service == null
      ensures r.Threw? ==> r.error == ArgumentNullException("service")
      ensures r.Returned? ==> fresh(r.value) && r.value.Service == service
    {
      if service == null {
        r := Threw(ArgumentNullException("service"));
      } else {
        var c := new DataEntityController(service);
        r := Returned(c);
      }
    }

    /** `GetAll`: the service is asked with a null base query and the paging
        arguments in (offset, limit) order. */
    method GetAll(search: Option<string>, limit: int, offset: int, orderBy: Option<string>, orderAsc: bool)
      returns (r: Outcome<Response<PagedResult<F>>>, ghost call: ServiceCall<F>)
      ensures call == RetrieveAllCall(RetrieveAllArgs(None, search, offset, limit, orderBy, orderAsc))
      ensures r == NotFoundIfNull(Service.RetrieveAll(RetrieveAllArgs(None, search, offset, limit, orderBy, orderAsc)))
    {
      var args := RetrieveAllArgs(None, search, offset, limit, orderBy, orderAsc);
      call := RetrieveAllCall(args);
      var result := Service.RetrieveAll(args);
      r := NotFoundIfNull(result);
    }

    /** `Get`: the entity with identifier `id`, or NotFound. */
    method Get(id: int) returns (r: Outcome<Response<DtoValue<F>>>, ghost call: ServiceCall<F>)
      ensures call == RetrieveCall(id)
      ensures r == NotFoundIfNull(Service.Retrieve(id))
    {
      call := RetrieveCall(id);
      var result := Service.Retrieve(id);
      r := NotFoundIfNull(result);
    }

    /** `Add`: the body, `null` included, goes to the service as it is. */
    method Add(dto: Dto?<F>) returns (r: Response<Option<DtoValue<F>>>, ghost call: ServiceCall<F>)
      ensures call == CreateCall(Snapshot(dto))
      ensures r == AddResponse(Service.Create(Snapshot(dto)))
    {
      var sent := Snapshot(dto);
      call := CreateCall(sent);
      var result := Service.Create(sent);
      r := AddResponse(result);
    }

    /** `Update`: a missing body is refused before the service is called;
        otherwise the body's identifier is overwritten with the route's and
        the body is handed to the service. */
    method Update(id: int, dto: Dto?<F>) returns (r: Response<Option<DtoValue<F>>>, ghost call: Option<ServiceCall<F>>)
      modifies dto
      ensures dto == null ==> r == BadRequest(Some(NoDataMessage))
      ensures dto == null ==> call == None
      ensures dto != null ==> dto.Id == id && dto.Fields == old(dto.Fields)
      ensures dto != null ==> call == Some(UpdateCall(DtoValue(id, old(dto.Fields))))
      ensures dto != null ==> r == UpdateResponse(Service.Update(DtoValue(id, old(dto.Fields))))
    {
      if dto == null {
        r, call := BadRequest(Some(NoDataMessage)), None;
        return;
      }
      dto.Id := id;
      var sent := DtoValue(dto.Id, dto.Fields);
      call := Some(UpdateCall(sent));
      var result := Service.Update(sent);
      r := UpdateResponse(result);
    }

    /** `Delete`: the default identifier is refused before the service is called. */
    method Delete(id: int) returns (r: Outcome<Response<()>>, ghost call: Option<ServiceCall<F>>)
      ensures id == DefaultId ==> r == Returned(BadRequest(None))
      ensures id != DefaultId ==> r == DeleteResponse(Service.Delete(id))
      ensures call == if id == DefaultId then None else Some(DeleteCall(id))
    {
      if id == DefaultId {
        r, call := Returned(BadRequest(None)), None;
        return;
      }
      call := Some(DeleteCall(id));
      var result := Service.Delete(id);
      r := DeleteResponse(result);
    }

    /** `Search`: the paged search of the service. */
    method Search(filters: Option<PagedSearchAndFilterInfo>) returns (r: Response<PagedResult<F>>, ghost call: ServiceCall<F>)
      ensures call == RetrievePagedCall(filters)
      ensures r == SearchResponse(Service.RetrievePaged(filters))
    {
      call := RetrievePagedCall(filters);
      var result := Service.RetrievePaged(filters);
      r := SearchResponse(result);
    }

    /** `GetAllIds`: the identifiers the service finds for `filters`. */
    method GetAllIds(filters: Option<PagedSearchAndFilterInfo>) returns (r: Response<seq<int>>, ghost call: ServiceCall<F>)
      ensures call == GetAllIdsCall(filters)
      ensures r == GetAllIdsResponse(Service.GetAllIds(filters))
    {
      call := GetAllIdsCall(filters);
      var result := Service.GetAllIds(filters);
      r := GetAllIdsResponse(result);
    }
  }

  // ---------------------------------------------------------------------
  // The status codes the actions answer with.
  // ---------------------------------------------------------------------

  /** An exception the actions have no dedicated answer for. */
  predicate Unexpected(e: Exception)
  {
    !e.ValidationException? && !e.KeyNotFoundException?
  }

  /** An unexpected exception is 400 for Add, Update and Search but 404 for
      GetAllIds, and escapes Get, GetAll and Delete. */
  lemma UnexpectedFailureStatus<T>(e: Exception, id: int)
    requires Unexpected(e)
    ensures StatusCode(AddResponse<T>(Threw(e))) == 400
    ensures StatusCode(UpdateResponse<T>(Threw(e))) == 400
    ensures StatusCode(SearchResponse<T>(Threw(e))) == 400
    ensures StatusCode(GetAllIdsResponse<T>(Threw(e))) == 404
    ensures NotFoundIfNull<T>(Threw(e)) == Threw(e)
    ensures DeleteResponse(Threw(e)) == Threw(e)
  {
  }

  /** A ValidationException is 400 with the exception's message for Add and
      Update, and loses its message in Search and GetAllIds. */
  lemma ValidationFailureStatus<T>(m: Option<string>)
    ensures AddResponse<T>(Threw(ValidationException(m))) == BadRequest(Some(MessageText(m)))
    ensures UpdateResponse<T>(Threw(ValidationException(m))) == BadRequest(Some(MessageText(m)))
    ensures SearchResponse<T>(Threw(ValidationException(m))) == BadRequest(None)
    ensures GetAllIdsResponse<T>(Threw(ValidationException(m))) == NotFound
  {
  }

  /** Add and Update tell a validation failure from an unexpected one: the
      first always comes with a message, even when `SaveChanges` raised it
      without one, and the second never does. */
  lemma ValidationDistinctFromUnexpected<T>(m: Option<string>, e: Exception)
    requires Unexpected(e)
    ensures AddResponse<T>(Threw(ValidationException(m))) != AddResponse<T>(Threw(e))
    ensures UpdateResponse<T>(Threw(ValidationException(m))) != UpdateResponse<T>(Threw(e))
  {
  }
}
