/**
  The controller's endpoints: two listings open to every caller, and six endpoints
  that first check that the caller is an administrator and then hand their arguments
  to the driver service. The services are an abstract state `S` and the functions
  that read or change it; the session reduces to whether the caller is an admin.
 */
module DriverAdmin {
  import opened Optional
  import opened DriverModel
  import DriverListing

  /** The one error the controller raises itself: the caller may not manage drivers. */
  datatype Error = NoDriverPermission

  /** What a service call yields: a value, or an exception with its message. */
  datatype Outcome<+T> = Value(value: T) | Thrown(message: string)

  /** A call into the driver service, with the arguments the controller passes. */
  datatype ServiceCall =
    | DeleteDriver(driver: DeDriver)
    | SaveDriver(driver: DeDriver)
    | UpdateDriver(driver: DeDriver)
    | ListDetails(driverId: string)
    | DeleteFile(fileId: string)
    | SaveJar(file: Upload, driverId: string)

  /** The value an endpoint answers with; `Done` is the answer of a void endpoint. */
  datatype Reply =
    | Done
    | OneDriver(driver: DeDriver)
    | Details(details: seq<DriverDetail>)
    | OneDetail(detail: DriverDetail)
    | Drivers(drivers: seq<Driver>)

  /** A request to one of the endpoints, with its parameters. */
  datatype Request =
    | ListAll
    | ListOfType(requested: string)
    | Delete(driver: DeDriver)
    | Save(driver: DeDriver)
    | Update(driver: DeDriver)
    | ListDriverDetails(id: string)
    | DeleteDriverFile(details: DriverDetail)
    | ExcelUpload(id: string, file: Upload)

  /**
    An endpoint's answer: the permission error, an exception a service threw
    (passed on unchanged), or a value.
   */
  datatype Response = Denied(error: Error) | Failed(message: string) | Ok(reply: Reply)

  /**
    The collaborators over a service state of type `S`: reading the driver list,
    reading the data-source types, and the driver service's other calls. Each may
    throw; the reads leave the state as it is.
   */
  datatype Backend<!S> = Backend(
    list: S -> Outcome<seq<Driver>>,
    types: S -> Outcome<seq<DsType>>,
    exec: (ServiceCall, S) -> (Outcome<Reply>, S))

  /** The endpoints that check for an administrator before doing anything. */
  predicate Guarded(req: Request) {
    !req.ListAll? && !req.ListOfType?
  }

  /** The endpoints declared `void`: they answer with no value. */
  predicate ReturnsNothing(req: Request) {
    req.Delete? || req.DeleteDriverFile?
  }

  /** The admin check: null when the caller is an admin, the permission error otherwise. */
  function CheckPermission(isAdmin: bool): (r: Option<Error>)
    ensures r.None? <==> isAdmin
    ensures r.Some? ==> r.value == NoDriverPermission
  {
    if !isAdmin then Some(NoDriverPermission) else None
  }

  /** The service call a guarded endpoint delegates to. */
  function ServiceCallOf(req: Request): ServiceCall
    requires Guarded(req)
  {
    match req
    case Delete(d) => DeleteDriver(d)
    case Save(d) => SaveDriver(d)
    case Update(d) => UpdateDriver(d)
    case ListDriverDetails(id) => ListDetails(id)
    case DeleteDriverFile(details) => DeleteFile(details.id)
    case ExcelUpload(id, file) => SaveJar(file, id)
  }

  /**
    `r` is what an endpoint answers after passing `call` to the service: the
    exception's message if the call threw, otherwise its value (`Done` for a void
    endpoint), together with the service's next state.
   */
  ghost predicate AnswersWith<S>(r: (Response, S), call: ServiceCall, state: S, backend: Backend<S>, void: bool) {
    var (outcome, next) := backend.exec(call, state);
    && r.1 == next
    && r.0 == (if outcome.Thrown? then Failed(outcome.message) else if void then Ok(Done) else Ok(outcome.value))
  }

  /** A request served against the service state; the result pairs the response with the new state. */
  function Handle<S>(isAdmin: bool, req: Request, state: S, backend: Backend<S>): (r: (Response, S))
    requires req.ListOfType? && backend.list(state).Value? ==>
      DriverListing.AllTyped(backend.list(state).value)
    ensures !Guarded(req) ==> r.1 == state
    ensures !Guarded(req) && backend.list(state).Thrown? ==> r.0 == Failed(backend.list(state).message)
    ensures req.ListAll? && backend.list(state).Value? ==> r.0 == Ok(Drivers(backend.list(state).value))
    ensures req.ListOfType? && backend.list(state).Value? && backend.types(state).Thrown? ==>
      r.0 == Failed(backend.types(state).message)
    ensures req.ListOfType? && backend.list(state).Value? && backend.types(state).Value? ==>
      r.0 == Ok(Drivers(DriverListing.ListByType(backend.list(state).value, backend.types(state).value, req.requested)))
    ensures Guarded(req) && !isAdmin ==> r == (Denied(NoDriverPermission), state)
    ensures Guarded(req) && isAdmin ==> AnswersWith(r, ServiceCallOf(req), state, backend, ReturnsNothing(req))
  {
    match req
    case ListAll =>
      (match backend.list(state)
       case Thrown(m) => (Failed(m), state)
       case Value(drivers) => (Ok(Drivers(drivers)), state))
    case ListOfType(t) =>
      (match backend.list(state)
       case Thrown(m) => (Failed(m), state)
       case Value(drivers) =>
         (match backend.types(state)
          case Thrown(m) => (Failed(m), state)
          case Value(types) => (Ok(Drivers(DriverListing.ListByType(drivers, types, t))), state)))
    case _ =>
      match CheckPermission(isAdmin)
      case Some(e) => (Denied(e), state)
      case None =>
        var (outcome, next) := backend.exec(ServiceCallOf(req), state);
        match outcome
        case Thrown(m) => (Failed(m), next)
        case Value(reply) => (Ok(if ReturnsNothing(req) then Done else reply), next)
  }

  /**
    A non-admin caller of a guarded endpoint gets the permission error whatever
    the service would do: the service is never consulted and the state is kept.
   */
  lemma NonAdminNeverReachesService<S>(req: Request, state: S, b1: Backend<S>, b2: Backend<S>)
    requires Guarded(req)
    ensures Handle(false, req, state, b1) == Handle(false, req, state, b2)
    ensures Handle(false, req, state, b1) == (Denied(NoDriverPermission), state)
  {
  }

  /**
    For an admin, each guarded endpoint passes its arguments to its service call;
    delete and file deletion answer `Done`, the others the service's value, and an
    exception is passed on as it was thrown.
   */
  lemma AdminDelegatesArguments<S>(req: Request, state: S, backend: Backend<S>)
    requires Guarded(req)
    ensures var r := Handle(true, req, state, backend);
      && (req.Delete? ==> AnswersWith(r, DeleteDriver(req.driver), state, backend, true))
      && (req.Save? ==> AnswersWith(r, SaveDriver(req.driver), state, backend, false))
      && (req.Update? ==> AnswersWith(r, UpdateDriver(req.driver), state, backend, false))
      && (req.ListDriverDetails? ==> AnswersWith(r, ListDetails(req.id), state, backend, false))
      && (req.DeleteDriverFile? ==> AnswersWith(r, DeleteFile(req.details.id), state, backend, true))
      && (req.ExcelUpload? ==> AnswersWith(r, SaveJar(req.file, req.id), state, backend, false))
  {
  }

  /** The void endpoints never answer with a value, whatever the service replies. */
  lemma VoidEndpointsAnswerNothing<S>(isAdmin: bool, req: Request, state: S, backend: Backend<S>)
    requires ReturnsNothing(req)
    ensures Handle(isAdmin, req, state, backend).0.Ok? ==> Handle(isAdmin, req, state, backend).0.reply == Done
  {
  }

  /**
    The two listings do not look at the caller: admins and others get the same answer
    and the state is kept. The unfiltered one returns the service's list unchanged;
    the typed one lists after reading the drivers and then the types, and an
    exception from either read is passed on.
   */
  lemma ListingsNeedNoAdmin<S>(req: Request, state: S, backend: Backend<S>)
    requires !Guarded(req)
    requires req.ListOfType? && backend.list(state).Value? ==>
      DriverListing.AllTyped(backend.list(state).value)
    ensures Handle(true, req, state, backend) == Handle(false, req, state, backend)
    ensures req.ListAll? && backend.list(state).Value? ==>
      Handle(false, req, state, backend) == (Ok(Drivers(backend.list(state).value)), state)
    ensures backend.list(state).Thrown? ==>
      Handle(false, req, state, backend) == (Failed(backend.list(state).message), state)
    ensures req.ListOfType? && backend.list(state).Value? && backend.types(state).Thrown? ==>
      Handle(false, req, state, backend) == (Failed(backend.types(state).message), state)
    ensures req.ListOfType? && backend.list(state).Value? && backend.types(state).Value? ==>
      var listed := DriverListing.ListByType(backend.list(state).value, backend.types(state).value, req.requested);
      Handle(false, req, state, backend) == (Ok(Drivers(listed)), state)
  {
  }
}
