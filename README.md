# Request pipeline of the feed-posts server

A Dafny model of the Express application in `server/app.js`: the chain of
middleware every HTTP request passes through, in the order the file registers
it. The chain parses the body (body-parser, then multer with a disk storage
and a MIME-type filter), serves stored images under `/images`, sets the CORS
headers and answers preflight requests, attaches the authentication outcome,
handles `PUT /post-image`, hands `/graphql` to the GraphQL executor (whose
errors pass through `customFormatErrorFn`), and ends in the error middleware
that turns every thrown error into one `{message, data}` response.

Files and modules:

- `js.dfy` (`Js`): `Option`, the JavaScript values the pipeline looks at, and
  `Truthy`, JavaScript's truthiness. The tests of `req.isAuth`,
  `req.body.oldPath`, `error.statusCode` and `originalError.code` are written
  with it, so `0`, `""`, `null` and `undefined` all take the fallback. The
  other tests are written on the types chosen for their operands, with the
  same meaning: `!req.file` and `!err.originalError` match on an `Option`,
  and `err.message || ...` compares the message string with `""`.
- `upload.dfy` (`Upload`): the file filter, the `destination` and `filename`
  callbacks, and `Intake`, which is what multer attaches as `req.file`. It also
  has `SplitStoredFilename`, the inverse of the naming rule, and lemmas that the
  stored name determines its timestamp and original name.
- `graphql_errors.dfy` (`GraphqlErrors`): `customFormatErrorFn`.
- `errors.dfy` (`Errors`): the error middleware's status and body.
- `http.dfy` (`Http`): Express's response object as a class. It has `headers`,
  `status`, `body` and `sent`, and every sending method requires that nothing
  was sent yet. It also has `EffectLog`, a class that records the files multer
  wrote and the paths passed to `clearImage`.
- `pipeline.dfy` (`Pipeline`): the stages as methods over a `Response` and an
  `EffectLog`: `Cors`, `PostImage`, `ErrorHandler`, and `Handle`, which runs
  them in registration order. `Expected` is the outcome of a request written
  as one case table, and `Handle` is proved to produce exactly that outcome
  and to send exactly one response.
- `properties.dfy` (`Properties`): the pipeline's guarantees, as lemmas over
  `Expected`.

Collaborators outside the pipeline are inputs. The authentication outcome is
`Request.isAuth`. A body-parser or multer failure is `Request.parseError`. The
clock's ISO string is `Env.timestamp`. Whether `images` holds a requested file
is `Env.imageExists`. The GraphQL executor's answer is `Env.graphql`.

Three consequences of the order in which server/app.js registers its
middleware, which the model keeps:

- Because multer is registered (server/app.js:43-49) before the CORS stage
  (server/app.js:55) and the auth middleware (server/app.js:70), an accepted
  image is written to `images` even when the request is a preflight or is
  later rejected as unauthenticated (`UnauthenticatedUploadStillStored`).
- Because the CORS stage answers a preflight with `res.sendStatus(200)`
  (server/app.js:62), the body is the reason phrase "OK" as text, not an
  empty body.
- Because `express.static` (server/app.js:51), body-parser and multer come
  before the CORS stage, served images and body-parser/multer failures are
  answered before any CORS header is set, so they carry none
  (`CorsHeadersExactlyAfterCorsStage`).

## Model

| member | source | states |
|---|---|---|
| `Upload.FileFilter` | server/app.js:24-34 | a part is accepted exactly when its MIME type is `image/png`, `image/jpg` or `image/jpeg`; there is no error outcome |
| `Upload.StoredFilename` | server/app.js:20-22 | the stored name is as long as the timestamp, one dash and the original name together |
| `Upload.SplitStoredFilename` | server/app.js:20-22 | a name that splits has an ISO-8601 timestamp as its first part |
| `Upload.SplitRoundTrip` | server/app.js:20-22 | for an ISO-8601 timestamp, splitting the stored name gives back exactly the timestamp and the original name |
| `Upload.SplitIsInverse` | server/app.js:20-22 | every name that splits is the stored name of its two parts |
| `Upload.StoredFilenameInjective` | server/app.js:20-22 | with ISO-8601 timestamps, two stored names are equal exactly when their timestamps and original names are |
| `Upload.Intake` | server/app.js:16-49 | `req.file` is present exactly when a part came and its type is accepted; it keeps the part's type and name, lies in `images`, its path is `images/` plus its name, and that name splits back into the timestamp and the original name |
| `Upload.DistinctTimestampsDistinctPaths` | server/app.js:16-23 | two accepted uploads whose ISO timestamps differ are written to different paths, whatever their original names. `toISOString` has millisecond resolution, so two uploads in the same millisecond with the same original name get the same path and the later write replaces the earlier (the converse direction of `StoredFilenameInjective`) |
| `GraphqlErrors.FormatError` | server/app.js:102-116 | an error without `originalError` passes through unchanged; otherwise the result carries the cause's `data`, the message or "An error occurred." when it is empty, and the cause's `code` or 500 when it is falsy, so the message and status are never falsy |
| `Errors.ErrorStatus` | server/app.js:122 | the status is `statusCode` when it is truthy and 500 otherwise, and never 0 |
| `Pipeline.Cors` | server/app.js:55-67 | the three CORS headers are added; an OPTIONS request is sent 200 and stops the chain, and any other request continues with status and body untouched |
| `Pipeline.PostImage` | server/app.js:73-95 | falsy `isAuth` throws "Not authenticated!" before anything is sent or cleared; an authenticated request without a file gets 200 "No file provided!" and nothing is cleared; with a file it gets 201 with the file's path, and `clearImage(oldPath)` runs exactly when `oldPath` is truthy |
| `Pipeline.ErrorHandler` | server/app.js:120-129 | sends one response, keeping the headers already set, with status `statusCode` or 500 and body exactly `{message, data}` |
| `Pipeline.Expected` | server/app.js:41-129 | the outcome of a request (reply, files stored, `clearImage` calls) as one case table, following the registration order; an old image is cleared only together with a newly stored file in a 201 reply |
| `Pipeline.Handle` | server/app.js:41-129 | running the stages in registration order sends exactly one response, and that response and the effects on the image store are those of `Expected` |
| `Properties.PreflightShortCircuits` | server/app.js:55-63 | an OPTIONS request gets 200 with the CORS headers whatever its path, auth and body, and nothing is cleared |
| `Properties.UnauthenticatedUploadRejected` | server/app.js:75-77 | an unauthenticated `PUT /post-image` gets 500 with `{message: "Not authenticated!", data: undefined}`, which is `{message}` on the wire, whether or not a file came with it; nothing is cleared |
| `Properties.UnauthenticatedUploadStillStored` | server/app.js:43-49 | an accepted image sent without authentication is still written, although the reply is the 500 |
| `Properties.NoFileProvidedIsSuccess` | server/app.js:79-82 | authenticated, with no file or a dropped one: 200 `{message: "No file provided!"}`, nothing stored and `clearImage` not called even when `oldPath` is set |
| `Properties.AcceptedFileIsStored` | server/app.js:84-93 | authenticated, with an accepted file: 201 `{message: "File stored", filePath}` with the path `images/<timestamp>-<original name>`; `clearImage(oldPath)` exactly when `oldPath` is truthy, and the reply does not depend on `oldPath` |
| `Properties.RejectedTypeActsAsAbsent` | server/app.js:31-32 | a part of a rejected type leaves the whole outcome as if no part had been sent |
| `Properties.OnlyAcceptedImagesStored` | server/app.js:16-34 | at most one file is written per request, and only an accepted type, in `images`, under its timestamped name |
| `Properties.CleanupOnlyAfterStoredUpload` | server/app.js:84-86 | `clearImage` runs at most once, with `oldPath`, and exactly for an authenticated `PUT /post-image` that stored a file and has a truthy `oldPath` |
| `Properties.CorsHeadersExactlyAfterCorsStage` | server/app.js:51-58 | every reply from the CORS stage on carries exactly the three CORS headers; served images and parse failures carry none |
| `Properties.ParseFailureNormalized` | server/app.js:120-128 | a body-parser or multer failure goes straight to the error middleware: status `statusCode` or 500, body `{message, data}`, nothing stored |
| `Properties.GraphqlErrorsAdapted` | server/app.js:98-117 | a GraphQL reply carries the executor's status, and its i-th error is `customFormatErrorFn` applied to the executor's i-th error, with the list's length kept; an adapted resolver error always has a non-empty message and a truthy status |

## Left out

- The database connection, `app.listen` and the startup logging (server/app.js:131-144) are process bootstrap and I/O.
- `console.log` of the error middleware is logging only.
- The auth middleware (server/middleware/auth.js) is not part of this model. Its outcome is the input `Request.isAuth`, and the model assumes it never ends a request itself.
- `clearImage` (server/util/file.js) is not part of this model. A call is recorded in `EffectLog.cleared`. Its deletion, any failure of the deletion, and any error it could throw synchronously are not modelled.
- body-parser and multer internals (parsing, limits, busboy, the disk write itself): only their result is modelled. That result is the optional `image` part, the file descriptor, a log entry for the write, or an error in `Request.parseError`. A failure is modelled as leaving no file behind.
- `express.static`: `Env.imageExists` says whether it answers. Its redirects, conditional requests and headers are not modelled.
- The GraphQL schema, the resolvers, the executor and the GraphiQL page are external. Their answer is the input `Env.graphql`, and only the error adapter is modelled.
- The clock: `new Date().toISOString()` is the parameter `Env.timestamp`. The naming lemmas assume the 24-character form, which the clock produces for the years 0 to 9999.
- `Upload.Intake`: the path is `images/` followed by the name. The normalisation `path.join` applies to names containing `/` or `..` is not modelled.
- Express routing is modelled as case-sensitive. Express matches `/post-image`, `/images` and `/graphql` without regard to case.
- Headers that Express or Node add on their own (`Content-Type`, `ETag`, `X-Powered-By`, ...) are not in `Reply.headers`. It holds the headers the application sets.
- `Errors.ErrorStatus`: `statusCode` is modelled as a number or absent. A non-numeric `statusCode`, and a status Node would refuse to write, are not modelled.
- JavaScript numbers are integers here. NaN, -0 and fractions, which would change truthiness and statuses, are not modelled.
- Concurrency: each `Pipeline.Handle` call is one request. The interleaving of requests in the event loop is not modelled.
