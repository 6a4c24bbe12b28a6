/**
 * The `/info/<requestname>` page: how a peer server's info request is validated,
 * dispatched to a registered handler, classified when it fails, and always
 * recorded in the connection log.
 */
module InfoConnection {

  // ---------------------------------------------------------------------------
  // Failure kinds and their status codes
  // ---------------------------------------------------------------------------

  /** The kinds of `WebException` the page distinguishes; `Unclassified` is every other subclass. */
  datatype ErrorKind =
    | BadRequest
    | Forbidden
    | NotFound
    | UnauthorizedServer
    | InternalError
    | ConnectionFail
    | Unclassified

  /** A thrown `WebException`: its kind and its message. */
  datatype WebError = WebError(kind: ErrorKind, message: string)

  /**
   * The status code written to the connection log for a caught failure.
   * Positive codes are HTTP error codes; -1 means the call could not be made at
   * all and 0 means the failure was not recognised. No failure is logged as 200.
   */
  function ResponseCodeFor(kind: ErrorKind): (code: int)
    ensures code == -1 <==> kind == ConnectionFail
    ensures code == 0 <==> kind == Unclassified
    ensures code > 0 ==> 400 <= code <= 500
    ensures code != 200
  {
    match kind
    case BadRequest => 400
    case Forbidden => 403
    case NotFound => 404
    case UnauthorizedServer => 412
    case InternalError => 500
    case ConnectionFail => -1
    case Unclassified => 0
  }

  /** The classification written out as a table, in the order of the source's `instanceof` chain. */
  const StatusTable: seq<(ErrorKind, int)> :=
    [(BadRequest, 400), (Forbidden, 403), (NotFound, 404),
     (UnauthorizedServer, 412), (InternalError, 500), (ConnectionFail, -1)]

  /** First-match lookup in a table of kinds and codes; a kind the table does not list gets 0. */
  function Lookup(table: seq<(ErrorKind, int)>, kind: ErrorKind): (code: int)
    ensures (forall i :: 0 <= i < |table| ==> table[i].0 != kind) ==> code == 0
    ensures code != 0 ==> exists i :: 0 <= i < |table| && table[i] == (kind, code)
    ensures forall i :: 0 <= i < |table| && table[i].0 == kind && (forall j :: 0 <= j < i ==> table[j].0 != kind)
                        ==> code == table[i].1
  {
    if table == [] then 0
    else if table[0].0 == kind then table[0].1
    else Lookup(table[1..], kind)
  }

  /** The classifier agrees with the table: every listed kind gets its code, and anything else gets 0. */
  lemma ClassifierIsTableLookup(kind: ErrorKind)
    ensures ResponseCodeFor(kind) == Lookup(StatusTable, kind)
  {
  }

  /** The two sentinel codes never coincide, and no two kinds share a code. */
  lemma CodesAreDistinct(a: ErrorKind, b: ErrorKind)
    ensures ResponseCodeFor(ConnectionFail) != ResponseCodeFor(Unclassified)
    ensures ResponseCodeFor(a) == ResponseCodeFor(b) ==> a == b
  {
  }

  // ---------------------------------------------------------------------------
  // Requests, handlers and outcomes
  // ---------------------------------------------------------------------------

  /** What the page reads of an inbound request: its method, the peer's address and the full target path. */
  datatype Request = Request(requestMethod: string, remoteAddress: string, targetPath: string)

  /** The responses the page can return. A handler's own response is kept abstract as a payload. */
  datatype Response =
    | NotFoundPage
    | BadRequestResponse(message: string)
    | HandlerResponse(payload: string)

  /** What a registered info request does when it handles a request. */
  datatype HandlerOutcome =
    | Ok(response: Response)
    | Fail(error: WebError)
    | Unexpected

  /** A registered info request, seen only through what it does with a request. */
  type Handler = Request -> HandlerOutcome

  /** How a call of the page ends: a returned response, a re-thrown `WebException`, or another failure. */
  datatype PageOutcome =
    | Returned(response: Response)
    | Threw(error: WebError)
    | Escaped

  const PostRequired: string := "POST should be used for Info calls."
  const NotRegistered: string := "Info Request has not been registered."

  /**
   * What a call of the page produces for `request` and the path segments `target`
   * after `/info`, given the registered info requests by name.
   */
  function Respond(registry: map<string, Handler>, request: Request, target: seq<string>): (o: PageOutcome)
    // only a call that passed both early checks can end other than with a returned response
    ensures !o.Returned? ==> target != [] && request.requestMethod == "POST"
    // a thrown error is the not-registered one or the registered handler's own, unchanged
    ensures o.Threw? ==> if target[0] in registry then registry[target[0]](request) == Fail(o.error)
                         else o.error == WebError(NotFound, NotRegistered)
    // another failure escapes only from a registered handler
    ensures o.Escaped? ==> target[0] in registry && registry[target[0]](request) == Unexpected
  {
    if target == [] then Returned(NotFoundPage)
    else if request.requestMethod != "POST" then Returned(BadRequestResponse(PostRequired))
    else if target[0] !in registry then Threw(WebError(NotFound, NotRegistered))
    else
      match registry[target[0]](request)
      case Ok(response) => Returned(response)
      case Fail(error) => Threw(error)
      case Unexpected => Escaped
  }

  /** The code written to the connection log for a call that ended with `outcome`. */
  function LoggedCode(outcome: PageOutcome): (code: int)
    ensures code == 200 <==> !outcome.Threw?
    ensures outcome.Threw? ==> code == ResponseCodeFor(outcome.error.kind)
  {
    if outcome.Threw? then ResponseCodeFor(outcome.error.kind) else 200
  }

  /** An empty target is answered with the not-found page whatever the method, and logged as 200. */
  lemma EmptyTargetIsNotFound(registry: map<string, Handler>, request: Request)
    ensures Respond(registry, request, []) == Returned(NotFoundPage)
    ensures LoggedCode(Respond(registry, request, [])) == 200
  {
  }

  /** A non-empty target with a method other than POST gets a bad-request response, logged as 200. */
  lemma NonPostIsBadRequest(registry: map<string, Handler>, request: Request, target: seq<string>)
    requires target != [] && request.requestMethod != "POST"
    ensures Respond(registry, request, target) == Returned(BadRequestResponse(PostRequired))
    ensures LoggedCode(Respond(registry, request, target)) == 200
  {
  }

  /** The two early answers do not look at the registry: any two registries give the same outcome. */
  lemma EarlyAnswersIgnoreRegistry(r1: map<string, Handler>, r2: map<string, Handler>,
                                   request: Request, target: seq<string>)
    requires target == [] || request.requestMethod != "POST"
    ensures Respond(r1, request, target) == Respond(r2, request, target)
    ensures Respond(r1, request, target).Returned?
  {
  }

  /** A POST naming no registered info request throws not-found, which is logged as 404. */
  lemma UnregisteredIsNotFound(registry: map<string, Handler>, request: Request, target: seq<string>)
    requires target != [] && request.requestMethod == "POST" && target[0] !in registry
    ensures Respond(registry, request, target) == Threw(WebError(NotFound, NotRegistered))
    ensures LoggedCode(Respond(registry, request, target)) == 404
  {
  }

  /**
   * For a registered info request the page passes the handler's result through:
   * its response is returned as it is (logged 200), its `WebException` is re-thrown
   * unchanged (logged with its classified code), and any other failure propagates
   * (logged 200).
   */
  lemma HandlerResultPassesThrough(registry: map<string, Handler>, request: Request, target: seq<string>)
    requires target != [] && request.requestMethod == "POST" && target[0] in registry
    ensures var o := Respond(registry, request, target);
      match registry[target[0]](request)
      case Ok(response) => o == Returned(response) && LoggedCode(o) == 200
      case Fail(error) => o == Threw(error) && LoggedCode(o) == ResponseCodeFor(error.kind)
      case Unexpected => o == Escaped && LoggedCode(o) == 200
  {
  }

  /** Only the registry entry of the first segment matters: the rest of the registry is never consulted. */
  lemma OnlyFirstSegmentIsLookedUp(r1: map<string, Handler>, r2: map<string, Handler>,
                                   request: Request, target: seq<string>)
    requires target != []
    requires target[0] in r1 <==> target[0] in r2
    requires target[0] in r1 ==> r1[target[0]](request) == r2[target[0]](request)
    ensures Respond(r1, request, target) == Respond(r2, request, target)
  {
  }

  // ---------------------------------------------------------------------------
  // The connection log and the page
  // ---------------------------------------------------------------------------

  /** One connection-log entry: who called, which target, and the resulting code. */
  datatype Record = Record(origin: string, targetPath: string, code: int)

  /** The append-only log of inbound connections. */
  class ConnectionLog {
    var records: seq<Record>

    constructor ()
      ensures records == []
    {
      records := [];
    }

    /** Records one connection; nothing already in the log changes. */
    method LogConnectionFrom(origin: string, targetPath: string, code: int)
      modifies this
      ensures records == old(records) + [Record(origin, targetPath, code)]
    {
      records := records + [Record(origin, targetPath, code)];
    }
  }

  /** The page handler for `/info/<requestname>` with the registered info requests and the log it writes to. */
  class InfoRequestPageHandler {
    const registry: map<string, Handler>
    const connections: ConnectionLog

    constructor (registry: map<string, Handler>, connections: ConnectionLog)
      ensures this.registry == registry && this.connections == connections
    {
      this.registry := registry;
      this.connections := connections;
    }

    /**
     * Answers one info request. Validation runs in a fixed order (empty target,
     * then method, then registration); the code is 200 unless a `WebException`
     * is caught, and exactly one record is appended on every way out.
     */
    method GetResponse(request: Request, target: seq<string>) returns (outcome: PageOutcome)
      modifies connections
      ensures outcome == Respond(registry, request, target)
      ensures connections.records
              == old(connections.records) + [Record(request.remoteAddress, request.targetPath, LoggedCode(outcome))]
    {
      var responseCode := 200;
      // try
      if target == [] {
        outcome := Returned(NotFoundPage);
      } else if request.requestMethod != "POST" {
        outcome := Returned(BadRequestResponse(PostRequired));
      } else {
        var requestName := target[0];
        if requestName !in registry {
          outcome := Threw(WebError(NotFound, NotRegistered));
        } else {
          var handled := registry[requestName](request);
          match handled
          case Ok(response) => outcome := Returned(response);
          case Fail(error) => outcome := Threw(error);
          case Unexpected => outcome := Escaped;
        }
      }
      // catch (WebException e): classify, then re-throw e unchanged
      if outcome.Threw? {
        responseCode := ResponseCodeFor(outcome.error.kind);
      }
      // finally
      connections.LogConnectionFrom(request.remoteAddress, request.targetPath, responseCode);
    }
  }
}
