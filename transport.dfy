/** The HTTP client the resource clients delegate to: `newRequest` and `do`.
    Request construction, authentication and JSON decoding are not
    modelled; each call is recorded in a ghost log, and what it returns is
    whatever the fields below say, so a contract stated for every value of
    those fields holds for every behaviour of the real client. */
module Transport {
  import opened Wrappers
  import Shapes
  import Entities

  datatype HttpMethod = GET | POST | PATCH | DELETE

  /** The options value handed to newRequest, if any. */
  datatype Body =
    | NoBody
    | ShapeListBody(shapeList: Shapes.ShapeListOptions)
    | ShapeCreateBody(shapeCreate: Shapes.ShapeCreateOptions)
    | ShapeUpdateBody(shapeUpdate: Shapes.ShapeUpdateOptions)
    | EntityListBody(entityList: Entities.EntityListOptions)
    | EntityCreateBody(entityCreate: Entities.EntityCreateOptions)
    | EntityUpdateBody(entityUpdate: Entities.EntityUpdateOptions)

  datatype Request = Request(verb: HttpMethod, path: string, body: Body)

  datatype Call = NewRequestCall(verb: HttpMethod, path: string, body: Body) | DoCall(request: Request)

  class Client {
    /** Every call made on this client, oldest first. */
    ghost var log: seq<Call>

    /** The outcome of newRequest: an error, or the request. */
    var requestError: Option<Error>
    /** The outcome of do: an error, or the decoded response below for
        the type of the target the caller passes. */
    var doError: Option<Error>
    var shapeListReply: Shapes.ShapeList<map<string, int>>
    var shapeReply: Shapes.WireShape
    var entityListReply: Entities.EntityList
    var entityReply: Entities.Entity

    constructor (requestError: Option<Error>, doError: Option<Error>,
                 shapeListReply: Shapes.ShapeList<map<string, int>>, shapeReply: Shapes.WireShape,
                 entityListReply: Entities.EntityList, entityReply: Entities.Entity)
      ensures log == []
      ensures this.requestError == requestError && this.doError == doError
      ensures this.shapeListReply == shapeListReply && this.shapeReply == shapeReply
      ensures this.entityListReply == entityListReply && this.entityReply == entityReply
    {
      log := [];
      this.requestError, this.doError := requestError, doError;
      this.shapeListReply, this.shapeReply := shapeListReply, shapeReply;
      this.entityListReply, this.entityReply := entityListReply, entityReply;
    }

    /** The calls one exchange makes: newRequest, then do if the request
        was built. */
    ghost function Exchange(verb: HttpMethod, path: string, body: Body): seq<Call>
      reads this
    {
      [NewRequestCall(verb, path, body)]
        + (if requestError.None? then [DoCall(Request(verb, path, body))] else [])
    }

    /** The error one exchange ends with: newRequest's, else do's. */
    function ExchangeError(): Option<Error>
      reads this
    {
      if requestError.Some? then requestError else doError
    }

    method NewRequest(verb: HttpMethod, path: string, body: Body) returns (r: Result<Request>)
      modifies this`log
      ensures log == old(log) + [NewRequestCall(verb, path, body)]
      ensures r == if requestError.Some? then Err(requestError.value) else Ok(Request(verb, path, body))
    {
      log := log + [NewRequestCall(verb, path, body)];
      if requestError.Some? {
        r := Err(requestError.value);
      } else {
        r := Ok(Request(verb, path, body));
      }
    }

    method DoShapeList(req: Request) returns (r: Result<Shapes.ShapeList<map<string, int>>>)
      modifies this`log
      ensures log == old(log) + [DoCall(req)]
      ensures r == if doError.Some? then Err(doError.value) else Ok(shapeListReply)
    {
      log := log + [DoCall(req)];
      r := if doError.Some? then Err(doError.value) else Ok(shapeListReply);
    }

    method DoShape(req: Request) returns (r: Result<Shapes.WireShape>)
      modifies this`log
      ensures log == old(log) + [DoCall(req)]
      ensures r == if doError.Some? then Err(doError.value) else Ok(shapeReply)
    {
      log := log + [DoCall(req)];
      r := if doError.Some? then Err(doError.value) else Ok(shapeReply);
    }

    method DoEntityList(req: Request) returns (r: Result<Entities.EntityList>)
      modifies this`log
      ensures log == old(log) + [DoCall(req)]
      ensures r == if doError.Some? then Err(doError.value) else Ok(entityListReply)
    {
      log := log + [DoCall(req)];
      r := if doError.Some? then Err(doError.value) else Ok(entityListReply);
    }

    method DoEntity(req: Request) returns (r: Result<Entities.Entity>)
      modifies this`log
      ensures log == old(log) + [DoCall(req)]
      ensures r == if doError.Some? then Err(doError.value) else Ok(entityReply)
    {
      log := log + [DoCall(req)];
      r := if doError.Some? then Err(doError.value) else Ok(entityReply);
    }

    /** do with a nil target: the response body is dropped. */
    method DoNoContent(req: Request) returns (err: Option<Error>)
      modifies this`log
      ensures log == old(log) + [DoCall(req)]
      ensures err == doError
    {
      log := log + [DoCall(req)];
      err := doError;
    }
  }
}
