/**
 * The mutable objects the middleware stages write to: Express's response
 * object, and a log of the side effects on the image store.
 */
module Http {
  import opened Js
  import opened Upload
  import opened GraphqlErrors

  /** What a response carries as its body. */
  datatype Body =
    | NoBody
      /** `res.sendStatus(code)`: the code's reason phrase as plain text. */
    | StatusPhrase(code: int)
      /** `res.json(object)`: the object passed in, before serialisation. */
    | JsonBody(fields: map<string, Value>)
      /** The GraphQL endpoint's answer: its data and its adapted errors. */
    | GraphqlPayload(data: Value, errors: seq<FormattedError>)
      /** A stored image served from `images`. */
    | StaticFile(path: string)
      /** Express's final "Cannot METHOD path" page. */
    | NotFoundPage(verb: string, path: string)

  /** A response as the client sees it; headers are those the application sets. */
  datatype Reply = Reply(headers: map<string, string>, status: int, body: Body)

  /** `JSON.stringify` leaves out the members whose value is undefined. */
  function Serialized(fields: map<string, Value>): (wire: map<string, Value>)
    ensures forall k :: k in wire <==> k in fields && fields[k] != Undefined
    ensures forall k :: k in wire ==> wire[k] == fields[k]
  {
    map k | k in fields && fields[k] != Undefined :: fields[k]
  }

  class Response {
    var headers: map<string, string>
    var status: int
    var body: Body
    var sent: bool

    /** A fresh response: no headers, Node's default status 200, nothing sent. */
    constructor ()
      ensures headers == map[] && status == 200 && body == NoBody && !sent
    {
      headers, status, body, sent := map[], 200, NoBody, false;
    }

    function Snapshot(): Reply
      reads this
    {
      Reply(headers, status, body)
    }

    /** `res.setHeader(name, value)`; only allowed before the response is sent. */
    method SetHeader(name: string, value: string)
      requires !sent
      modifies this`headers
      ensures headers == old(headers)[name := value]
    {
      headers := headers[name := value];
    }

    /** `res.status(code)`. */
    method Status(code: int)
      requires !sent
      modifies this`status
      ensures status == code
    {
      status := code;
    }

    /** `res.json(fields)`: sends the response. */
    method Json(fields: map<string, Value>)
      requires !sent
      modifies this`body, this`sent
      ensures body == JsonBody(fields) && sent
    {
      body, sent := JsonBody(fields), true;
    }

    /** `res.sendStatus(code)`: sets the status and sends its reason phrase. */
    method SendStatus(code: int)
      requires !sent
      modifies this`status, this`body, this`sent
      ensures status == code && body == StatusPhrase(code) && sent
    {
      status, body, sent := code, StatusPhrase(code), true;
    }

    /** A response sent by a library stage (static files, GraphQL, the final 404). */
    method Send(b: Body)
      requires !sent
      modifies this`body, this`sent
      ensures body == b && sent
    {
      body, sent := b, true;
    }
  }

  /** The side effects on the image store: files multer wrote, paths passed to `clearImage`. */
  class EffectLog {
    var stored: seq<FileDescriptor>
    var cleared: seq<Value>

    constructor ()
      ensures stored == [] && cleared == []
    {
      stored, cleared := [], [];
    }

    /** multer's disk write of an accepted part. */
    method Store(file: FileDescriptor)
      modifies this`stored
      ensures stored == old(stored) + [file]
    {
      stored := stored + [file];
    }

    /** `clearImage(path)`: best-effort deletion, recorded and not awaited. */
    method ClearImage(path: Value)
      modifies this`cleared
      ensures cleared == old(cleared) + [path]
    {
      cleared := cleared + [path];
    }
  }
}
