/**
 * What the pipeline guarantees, stated over Expected, the outcome that
 * Pipeline.Handle is proved to produce.
 */
module Properties {
  import opened Js
  import opened Upload
  import opened GraphqlErrors
  import opened Http
  import opened Pipeline

  /**
   * A preflight is answered 200 with the CORS headers, whatever its path,
   * authentication and body: auth, the routes and the error middleware
   * never see it. multer has already run, so an accepted part is still written.
   */
  lemma PreflightShortCircuits(req: Request, env: Env, path: string, isAuth: Value, oldPath: Value, g: Execution)
    requires req.parseError.None? && req.verb == "OPTIONS"
    ensures Expected(req, env).reply == Reply(CorsHeaders(), 200, StatusPhrase(200))
    ensures Expected(req, env).cleared == []
    ensures Expected(req.(path := path, isAuth := isAuth, oldPath := oldPath), env.(graphql := g)) == Expected(req, env)
  {
  }

  /**
   * An unauthenticated `PUT /post-image` fails with 500 and
   * "Not authenticated!" whether or not a file came with it: the auth check
   * runs before the file check, so a missing file never yields the 200.
   */
  lemma UnauthenticatedUploadRejected(req: Request, env: Env)
    requires req.parseError.None? && IsPostImage(req) && !Truthy(req.isAuth)
    ensures Expected(req, env).reply.status == 500
    ensures Expected(req, env).reply.body == JsonBody(map["message" := Str("Not authenticated!"), "data" := Undefined])
    ensures Serialized(Expected(req, env).reply.body.fields) == map["message" := Str("Not authenticated!")]
    ensures Expected(req, env).cleared == []
    ensures Expected(req.(upload := None), env).reply == Expected(req, env).reply
  {
  }

  /**
   * multer writes an accepted part before the CORS stage and the auth check
   * run, so an unauthenticated upload is rejected and yet stored.
   */
  lemma UnauthenticatedUploadStillStored(req: Request, env: Env)
    requires req.parseError.None? && IsPostImage(req) && !Truthy(req.isAuth)
    requires req.upload.Some? && FileFilter(req.upload.value)
    ensures Expected(req, env).reply.status == 500
    ensures Expected(req, env).stored == [Intake(req.upload, env.timestamp).value]
  {
  }

  /**
   * Authenticated, with no accepted file (none sent, or its type dropped by
   * the filter): 200 "No file provided!", nothing stored and clearImage not
   * called even when oldPath is set.
   */
  lemma NoFileProvidedIsSuccess(req: Request, env: Env)
    requires req.parseError.None? && IsPostImage(req) && Truthy(req.isAuth)
    requires req.upload.None? || !FileFilter(req.upload.value)
    ensures Expected(req, env).reply == Reply(CorsHeaders(), 200, JsonBody(map["message" := Str("No file provided!")]))
    ensures Expected(req, env).stored == [] && Expected(req, env).cleared == []
  {
  }

  /**
   * Authenticated, with an accepted file: 201 with the stored path; clearImage
   * is called exactly when oldPath is truthy, and the reply does not depend on it.
   */
  lemma AcceptedFileIsStored(req: Request, env: Env, otherOldPath: Value)
    requires req.parseError.None? && IsPostImage(req) && Truthy(req.isAuth)
    requires req.upload.Some? && FileFilter(req.upload.value)
    ensures var file := Intake(req.upload, env.timestamp).value;
      Expected(req, env).reply == Reply(CorsHeaders(), 201, JsonBody(map["message" := Str("File stored"), "filePath" := Str(file.path)])) &&
      Expected(req, env).stored == [file] &&
      file.path == "images/" + StoredFilename(env.timestamp, req.upload.value.originalname)
    ensures Expected(req, env).cleared == if Truthy(req.oldPath) then [req.oldPath] else []
    ensures Expected(req.(oldPath := otherOldPath), env).reply == Expected(req, env).reply
  {
  }

  /** A part whose type the filter rejects changes nothing: the request behaves as if it had none. */
  lemma RejectedTypeActsAsAbsent(req: Request, env: Env)
    requires req.upload.Some? && !FileFilter(req.upload.value)
    ensures Expected(req, env) == Expected(req.(upload := None), env)
  {
  }

  /**
   * Only accepted images are ever written, always to `images` under the
   * timestamped name, and at most one per request.
   */
  lemma OnlyAcceptedImagesStored(req: Request, env: Env)
    ensures |Expected(req, env).stored| <= 1
    ensures forall f :: f in Expected(req, env).stored ==>
      f.mimetype in AcceptedMimeTypes && f.destination == "images" &&
      f.path == StoredPath(f.filename) &&
      (IsIsoTimestamp(env.timestamp) ==> SplitStoredFilename(f.filename) == Some((env.timestamp, f.originalname)))
  {
  }

  /**
   * clearImage runs at most once, and only for an authenticated
   * `PUT /post-image` that stored a file and named a truthy oldPath.
   */
  lemma CleanupOnlyAfterStoredUpload(req: Request, env: Env)
    ensures |Expected(req, env).cleared| <= 1
    ensures Expected(req, env).cleared != [] <==>
      req.parseError.None? && IsPostImage(req) && Truthy(req.isAuth) &&
      Intake(req.upload, env.timestamp).Some? && Truthy(req.oldPath)
    ensures Expected(req, env).cleared != [] ==> Expected(req, env).cleared == [req.oldPath]
  {
  }

  /**
   * Every reply from the CORS stage onwards carries exactly the three CORS
   * headers; a body-parser or multer failure and a served image are answered
   * before that stage and carry none.
   */
  lemma CorsHeadersExactlyAfterCorsStage(req: Request, env: Env)
    ensures req.parseError.None? && !ServesStatic(req, env) ==> Expected(req, env).reply.headers == CorsHeaders()
    ensures req.parseError.Some? || ServesStatic(req, env) ==> Expected(req, env).reply.headers == map[]
  {
  }

  /**
   * A body-parser or multer failure reaches the error middleware directly:
   * its status is the error's truthy statusCode or 500, its body `{message, data}`,
   * and no file is stored.
   */
  lemma ParseFailureNormalized(req: Request, env: Env)
    requires req.parseError.Some?
    ensures var e := req.parseError.value;
      Expected(req, env).reply.status == (if Truthy(OfNumber(e.statusCode)) then e.statusCode.value else 500) &&
      Expected(req, env).reply.body == JsonBody(map["message" := e.message, "data" := e.data])
    ensures Expected(req, env).stored == [] && Expected(req, env).cleared == []
  {
  }

  /**
   * A GraphQL reply lists the executor's errors in order, each adapted: a
   * resolver's error always leaves with a non-empty message and a truthy status.
   */
  lemma GraphqlErrorsAdapted(req: Request, env: Env)
    requires req.parseError.None? && !ServesStatic(req, env) && req.verb != "OPTIONS"
    requires IsGraphql(req)
    ensures Expected(req, env).reply.status == env.graphql.status
    ensures Expected(req, env).reply.body.GraphqlPayload?
    ensures var errs := Expected(req, env).reply.body.errors;
      |errs| == |env.graphql.errors| &&
      forall i :: 0 <= i < |errs| ==>
        errs[i] == FormatError(env.graphql.errors[i]) &&
        (errs[i].PassThrough? <==> env.graphql.errors[i].originalError.None?) &&
        (errs[i].Normalized? ==> errs[i].message != "" && Truthy(errs[i].status))
  {
  }
}
