/**
 * The middleware chain of server/app.js, in registration order:
 * body-parser and multer, the static `/images` route, the CORS stage, the
 * auth middleware, `PUT /post-image`, the GraphQL endpoint and the error
 * middleware. Handle runs the stages one by one on a Response and an
 * EffectLog; Expected states the outcome of a request as one case table,
 * and the lemmas below state the pipeline's guarantees on that table.
 */
module Pipeline {
  import opened Js
  import opened Upload
  import opened GraphqlErrors
  import opened Errors
  import opened Http

  /**
   * A request as the stages see it. `parseError` is what body-parser or
   * multer failed with, if anything; `upload` is the multipart `image`
   * part before the file filter; `oldPath` is `req.body.oldPath`;
   * `isAuth` is what the auth middleware attached.
   */
  datatype Request = Request(
    verb: string,
    path: string,
    parseError: Option<ErrorObj>,
    upload: Option<Part>,
    oldPath: Value,
    isAuth: Value)

  /** The GraphQL executor's answer: its HTTP status, data and raw errors. */
  datatype Execution = Execution(status: int, data: Value, errors: seq<GraphQLError>)

  /**
   * What collaborators outside the pipeline contribute: the clock's ISO
   * string, whether `images` holds the requested file, and the GraphQL
   * executor's answer.
   */
  datatype Env = Env(timestamp: string, imageExists: bool, graphql: Execution)

  /** The whole outcome of one request: the reply and the effects on the image store. */
  datatype Exchange = Exchange(reply: Reply, stored: seq<FileDescriptor>, cleared: seq<Value>)

  /** The three headers the CORS stage sets on every request that reaches it. */
  function CorsHeaders(): map<string, string> {
    map[
      "Access-Control-Allow-Origin" := "*",
      "Access-Control-Allow-Methods" := "GET, POST, PUT, PATCH, DELETE",
      "Access-Control-Allow-Headers" := "Content-Type, Authorization"
    ]
  }

  /** Express's match of a path against a mount point given to `app.use`. */
  predicate UnderMount(path: string, mount: string) {
    path == mount || (|mount| < |path| && path[..|mount|] == mount && path[|mount|] == '/')
  }

  /** `app.put('/post-image', ...)` matches, trailing slash allowed. */
  predicate IsPostImage(req: Request) {
    req.verb == "PUT" && (req.path == "/post-image" || req.path == "/post-image/")
  }

  /** `express.static` answers GET and HEAD under `/images` when the file exists. */
  predicate ServesStatic(req: Request, env: Env) {
    (req.verb == "GET" || req.verb == "HEAD") && UnderMount(req.path, "/images") && env.imageExists
  }

  predicate IsGraphql(req: Request) {
    UnderMount(req.path, "/graphql")
  }

  const NoFileProvided: map<string, Value> := map["message" := Str("No file provided!")]

  function FileStored(file: FileDescriptor): map<string, Value> {
    map["message" := Str("File stored"), "filePath" := Str(file.path)]
  }

  /** The reply the error middleware sends for `e` on a response already carrying `headers`. */
  function ErrorReply(headers: map<string, string>, e: ErrorObj): Reply {
    Reply(headers, ErrorStatus(e), JsonBody(ErrorBody(e)))
  }

  /**
   * The outcome of one request, case by case. An old image is only ever
   * cleared alongside a newly stored one, in a 201 reply.
   */
  function Expected(req: Request, env: Env): (x: Exchange)
    ensures x.cleared != [] ==> |x.stored| == 1 && x.reply.status == 201
  {
    var file := Intake(req.upload, env.timestamp);
    var stored := if file.Some? then [file.value] else [];
    if req.parseError.Some? then
      Exchange(ErrorReply(map[], req.parseError.value), [], [])
    else if ServesStatic(req, env) then
      Exchange(Reply(map[], 200, StaticFile(req.path)), stored, [])
    else if req.verb == "OPTIONS" then
      Exchange(Reply(CorsHeaders(), 200, StatusPhrase(200)), stored, [])
    else if IsPostImage(req) && !Truthy(req.isAuth) then
      Exchange(ErrorReply(CorsHeaders(), NotAuthenticated), stored, [])
    else if IsPostImage(req) && file.None? then
      Exchange(Reply(CorsHeaders(), 200, JsonBody(NoFileProvided)), stored, [])
    else if IsPostImage(req) then
      Exchange(Reply(CorsHeaders(), 201, JsonBody(FileStored(file.value))), stored,
               if Truthy(req.oldPath) then [req.oldPath] else [])
    else if IsGraphql(req) then
      Exchange(Reply(CorsHeaders(), env.graphql.status,
                     GraphqlPayload(env.graphql.data, FormatErrors(env.graphql.errors))), stored, [])
    else
      Exchange(Reply(CorsHeaders(), 404, NotFoundPage(req.verb, req.path)), stored, [])
  }

  /** The CORS stage: set the three headers; answer a preflight with 200, else hand on. */
  method Cors(req: Request, res: Response) returns (next: bool)
    requires !res.sent
    modifies res
    ensures res.headers == old(res.headers) + CorsHeaders()
    ensures next <==> req.verb != "OPTIONS"
    ensures next ==> !res.sent && res.status == old(res.status) && res.body == old(res.body)
    ensures !next ==> res.sent && res.status == 200 && res.body == StatusPhrase(200)
  {
    res.SetHeader("Access-Control-Allow-Origin", "*");
    res.SetHeader("Access-Control-Allow-Methods", "GET, POST, PUT, PATCH, DELETE");
    res.SetHeader("Access-Control-Allow-Headers", "Content-Type, Authorization");
    if req.verb == "OPTIONS" {
      res.SendStatus(200);
      return false;
    }
    return true;
  }

  /**
   * The `PUT /post-image` handler: authentication first, then the file,
   * then the optional cleanup of the old image. Returns the error it throws.
   */
  method PostImage(req: Request, file: Option<FileDescriptor>, res: Response, log: EffectLog)
    returns (thrown: Option<ErrorObj>)
    requires !res.sent
    modifies res, log
    ensures res.headers == old(res.headers) && log.stored == old(log.stored)
    ensures thrown.Some? <==> !Truthy(req.isAuth)
    ensures thrown.Some? ==>
      thrown.value == NotAuthenticated && !res.sent &&
      res.status == old(res.status) && res.body == old(res.body) && log.cleared == old(log.cleared)
    ensures thrown.None? && file.None? ==>
      res.sent && res.status == 200 && res.body == JsonBody(NoFileProvided) &&
      log.cleared == old(log.cleared)
    ensures thrown.None? && file.Some? ==>
      res.sent && res.status == 201 && res.body == JsonBody(FileStored(file.value)) &&
      log.cleared == old(log.cleared) + (if Truthy(req.oldPath) then [req.oldPath] else [])
  {
    if !Truthy(req.isAuth) {
      return Some(NotAuthenticated);
    }
    if file.None? {
      res.Status(200);
      res.Json(NoFileProvided);
      return None;
    }
    if Truthy(req.oldPath) {
      log.ClearImage(req.oldPath);
    }
    res.Status(201);
    res.Json(FileStored(file.value));
    return None;
  }

  /** The error middleware: status `statusCode || 500`, body `{message, data}`. */
  method ErrorHandler(e: ErrorObj, res: Response)
    requires !res.sent
    modifies res
    ensures res.sent && res.Snapshot() == ErrorReply(old(res.headers), e)
  {
    var status := ErrorStatus(e);
    res.Status(status);
    res.Json(ErrorBody(e));
  }

  /**
   * One request through the whole chain, on a fresh response. Exactly one
   * response is sent: every sending step requires that none was sent yet.
   */
  method Handle(req: Request, env: Env, res: Response, log: EffectLog)
    requires res.headers == map[] && res.status == 200 && res.body == NoBody && !res.sent
    modifies res, log
    ensures res.sent && res.Snapshot() == Expected(req, env).reply
    ensures log.stored == old(log.stored) + Expected(req, env).stored
    ensures log.cleared == old(log.cleared) + Expected(req, env).cleared
  {
    // body-parser, then multer: a parse failure goes straight to the error middleware
    if req.parseError.Some? {
      ErrorHandler(req.parseError.value, res);
      return;
    }
    var file := Intake(req.upload, env.timestamp);
    if file.Some? {
      log.Store(file.value);
    }
    // express.static for /images
    if ServesStatic(req, env) {
      res.Send(StaticFile(req.path));
      return;
    }
    var next := Cors(req, res);
    if !next {
      return;
    }
    // the auth middleware only attaches req.isAuth, which the request carries
    if IsPostImage(req) {
      var thrown := PostImage(req, file, res, log);
      if thrown.Some? {
        ErrorHandler(thrown.value, res);
      }
      return;
    }
    if IsGraphql(req) {
      res.Status(env.graphql.status);
      res.Send(GraphqlPayload(env.graphql.data, FormatErrors(env.graphql.errors)));
      return;
    }
    res.Status(404);
    res.Send(NotFoundPage(req.verb, req.path));
  }
}
