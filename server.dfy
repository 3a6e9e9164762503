/** The request-routing step shared by the HTTP and HTTPS servers: path and method
    normalisation, reading the body, the router lookup with its `notFound` fallback, and the
    defaults applied to what a handler calls back with. */
module Server {
  import opened Js
  import Data
  import Handlers

  // ---------------------------------------------------------------------------
  // path and method normalisation

  predicate IsSlash(c: char) {
    c == '/'
  }

  /** `pathname.replace(/^\/+|\/+$/g, '')`: every leading and every trailing slash removed. */
  function RoutedPath(pathname: string): (r: string)
    ensures r == "" || (r[0] != '/' && r[|r| - 1] != '/')
    ensures r == pathname <==> (pathname == "" || (pathname[0] != '/' && pathname[|pathname| - 1] != '/'))
  {
    StripEndsUnpadded(pathname, IsSlash);
    StripFixpoint(pathname, IsSlash);
    Strip(pathname, IsSlash)
  }

  /** The routed path is a contiguous piece of the pathname with only slashes cut off either
      side, and it neither starts nor ends with a slash; interior slashes are kept. */
  lemma RoutedPathShape(pathname: string)
    ensures var r := RoutedPath(pathname);
            && (r == "" || (r[0] != '/' && r[|r| - 1] != '/'))
            && var i := |pathname| - |DropLeading(pathname, IsSlash)|;
               && 0 <= i && i + |r| <= |pathname| && r == pathname[i..i + |r|]
               && (forall k :: 0 <= k < i ==> pathname[k] == '/')
               && (forall k :: i + |r| <= k < |pathname| ==> pathname[k] == '/')
  {
    StripShape(pathname, IsSlash);
    StripEndsUnpadded(pathname, IsSlash);
  }

  /** Trimming the routed path again changes nothing, and a path without outer slashes is
      routed as written. */
  lemma RoutedPathIdempotent(pathname: string)
    ensures RoutedPath(RoutedPath(pathname)) == RoutedPath(pathname)
    ensures RoutedPath(pathname) == pathname <==>
              (pathname == "" || (pathname[0] != '/' && pathname[|pathname| - 1] != '/'))
  {
    StripIdempotent(pathname, IsSlash);
    StripFixpoint(pathname, IsSlash);
  }

  /** `req.method.toLowerCase()` */
  function HandlerMethod(requestMethod: string): (m: string)
    ensures |m| == |requestMethod|
    ensures forall i :: 0 <= i < |m| ==> m[i] == LowerChar(requestMethod[i])
    ensures forall i :: 0 <= i < |m| ==> !('A' <= m[i] <= 'Z')
    ensures ToLower(m) == m
  {
    ToLowerIdempotent(requestMethod);
    ToLower(requestMethod)
  }

  // ---------------------------------------------------------------------------
  // the body

  /** The decoded chunks of the body joined in order. */
  function Concat(chunks: seq<string>): string {
    if |chunks| == 0 then "" else Concat(chunks[..|chunks| - 1]) + chunks[|chunks| - 1]
  }

  /** Joining distributes over splitting the chunk sequence anywhere. */
  lemma {:induction false} ConcatSplit(a: seq<string>, b: seq<string>)
    ensures Concat(a + b) == Concat(a) + Concat(b)
    decreases |b|
  {
    if |b| > 0 {
      var b' := b[..|b| - 1];
      assert (a + b)[..|a + b| - 1] == a + b';
      ConcatSplit(a, b');
    } else {
      assert a + b == a;
    }
  }

  /** A body sent as one chunk is read as that text. */
  lemma ConcatSingle(s: string)
    ensures Concat([s]) == s
  {
    assert [s][..0] == [];
  }

  /** `payload += decoder.write(data)` on every 'data' event, then `decoder.end()` (empty once
      every chunk is decoded). */
  method ReadBody(chunks: seq<string>) returns (payload: string)
    ensures payload == Concat(chunks)
  {
    payload := "";
    var i := 0;
    while i < |chunks|
      invariant 0 <= i <= |chunks|
      invariant payload == Concat(chunks[..i])
    {
      assert chunks[..i + 1][..i] == chunks[..i];
      payload := payload + chunks[i];
      i := i + 1;
    }
    assert chunks[..i] == chunks;
  }

  /** helpers.parseJsonToObject over an abstract JSON.parse (`None` where it throws):
      the parsed value, or `{}` for text that is not JSON. */
  function ParseJsonToObject(parse: string -> Option<JsValue>, text: string): (v: JsValue)
    ensures parse(text).Some? ==> v == parse(text).value
    ensures parse(text).None? ==> v == Obj(map[])
  {
    match parse(text)
    case Some(value) => value
    case None => Obj(map[])
  }

  // ---------------------------------------------------------------------------
  // the router

  /** What `server.router[path]` evaluates to. */
  datatype Route = PingRoute | UsersRoute | NotFoundRoute | InheritedMember(name: string)

  /** The router is a plain object: a path it does not own may still name a member every
      object inherits. */
  const ObjectPrototypeMembers: set<string> :=
    {"constructor", "hasOwnProperty", "isPrototypeOf", "propertyIsEnumerable", "toString",
     "toLocaleString", "valueOf", "__proto__", "__defineGetter__", "__defineSetter__",
     "__lookupGetter__", "__lookupSetter__"}

  /** `typeof(router[path]) !== 'undefined' ? router[path] : handlers.notFound`, where the
      router maps "ping" and "users" to their handlers and "tokens" and "checks" to the
      undefined `handlers.tokens` and `handlers.checks`. */
  function ChooseHandler(path: string): (r: Route)
    ensures r == PingRoute <==> path == "ping"
    ensures r == UsersRoute <==> path == "users"
    ensures r.InheritedMember? <==> path in ObjectPrototypeMembers
    ensures path == "tokens" || path == "checks" ==> r == NotFoundRoute
  {
    if path == "ping" then PingRoute
    else if path == "users" then UsersRoute
    else if path in ObjectPrototypeMembers then InheritedMember(path)
    else NotFoundRoute
  }

  // ---------------------------------------------------------------------------
  // the response

  /** What the client receives: a status line, the Content-Type header and the body, or
      nothing at all when the chosen function never calls back (an inherited object member)
      or throws before it does. */
  datatype ServerOutcome = Responded(status: real, contentType: string, body: string) | NoResponse

  const JsonContentType := "application/json"

  /** `typeof(statusCode) == 'number' ? statusCode : 200` */
  function ResponseStatus(statusCode: JsValue): (s: real)
    ensures statusCode.Num? ==> s == statusCode.n
    ensures !statusCode.Num? ==> s == 200.0
  {
    if TypeOf(statusCode) == "number" then statusCode.n else 200.0
  }

  /** `typeof(payload) == 'object' ? payload : {}` (so `null` and arrays are kept). */
  function ResponsePayload(payload: JsValue): (p: JsValue)
    ensures p.Null? || p.Arr? || p.Obj?
    ensures payload.Null? || payload.Arr? || payload.Obj? ==> p == payload
    ensures !(payload.Null? || payload.Arr? || payload.Obj?) ==> p == Obj(map[])
  {
    if TypeOf(payload) == "object" then payload else Obj(map[])
  }

  /** The callback `unifiedServer` hands to the handler, over an abstract JSON.stringify. */
  function Respond(reply: Handlers.Reply, stringify: JsValue -> string): (o: ServerOutcome)
    ensures reply.Threw? <==> o.NoResponse?
    ensures reply.Reply? ==>
              o == Responded(ResponseStatus(reply.status), JsonContentType, stringify(ResponsePayload(reply.payload)))
  {
    match reply
    case Threw => NoResponse
    case Reply(status, payload) => Responded(ResponseStatus(status), JsonContentType, stringify(ResponsePayload(payload)))
  }

  /** The parts of the incoming request the routing step reads. */
  datatype IncomingRequest = IncomingRequest(pathname: string, query: map<string, JsValue>, requestMethod: string, chunks: seq<string>)

  /** The `data` object handed to the chosen handler. */
  function HandlerData(req: IncomingRequest, parse: string -> Option<JsValue>): Handlers.Request {
    Handlers.Request(RoutedPath(req.pathname), HandlerMethod(req.requestMethod), req.query,
                     ParseJsonToObject(parse, Concat(req.chunks)))
  }

  /** One request through `unifiedServer`: the outcome and the store it leaves. */
  function Serve(files: Handlers.Files, req: IncomingRequest, parse: string -> Option<JsValue>,
                 stringify: JsValue -> string, hmac: string -> string): (r: (ServerOutcome, Handlers.Files))
    ensures ChooseHandler(RoutedPath(req.pathname)) != UsersRoute ==> r.1 == files
    ensures ChooseHandler(RoutedPath(req.pathname)).InheritedMember? ==> r.0 == NoResponse
    ensures ChooseHandler(RoutedPath(req.pathname)) == NotFoundRoute ==>
              r.0 == Responded(404.0, JsonContentType, stringify(Obj(map[])))
    ensures ChooseHandler(RoutedPath(req.pathname)) == PingRoute ==>
              r.0 == Responded(200.0, JsonContentType, stringify(Obj(map[])))
  {
    var data := HandlerData(req, parse);
    match ChooseHandler(data.path)
    case PingRoute => (Respond(Handlers.Ping(), stringify), files)
    case NotFoundRoute => (Respond(Handlers.NotFound(), stringify), files)
    case InheritedMember(_) => (NoResponse, files)
    case UsersRoute =>
      var h := Handlers.UsersSpec(files, data, hmac);
      (Respond(h.reply, stringify), h.files)
  }

  /** Every answer is JSON, and its body is the serialisation of an object-typed value. */
  lemma ResponsesAreJson(files: Handlers.Files, req: IncomingRequest, parse: string -> Option<JsValue>,
                         stringify: JsValue -> string, hmac: string -> string)
    ensures var o := Serve(files, req, parse, stringify, hmac).0;
            o.Responded? ==> (o.contentType == JsonContentType
              && exists p: JsValue :: (p.Null? || p.Arr? || p.Obj?) && o.body == stringify(p))
  {
    var data := HandlerData(req, parse);
    var o := Serve(files, req, parse, stringify, hmac).0;
    if o.Responded? {
      match ChooseHandler(data.path)
      case PingRoute => assert o.body == stringify(Obj(map[]));
      case NotFoundRoute => assert o.body == stringify(Obj(map[]));
      case UsersRoute =>
        var reply := Handlers.UsersSpec(files, data, hmac).reply;
        assert o.body == stringify(ResponsePayload(reply.payload));
    }
  }

  /** Paths that differ only in leading and trailing slashes are served alike. */
  lemma OuterSlashesIrrelevant(files: Handlers.Files, req: IncomingRequest, parse: string -> Option<JsValue>,
                               stringify: JsValue -> string, hmac: string -> string)
    ensures Serve(files, req.(pathname := RoutedPath(req.pathname)), parse, stringify, hmac) ==
            Serve(files, req, parse, stringify, hmac)
  {
    RoutedPathIdempotent(req.pathname);
  }

  /** The request method is matched without regard to ASCII case. */
  lemma MethodCaseIrrelevant(files: Handlers.Files, req: IncomingRequest, parse: string -> Option<JsValue>,
                             stringify: JsValue -> string, hmac: string -> string)
    ensures Serve(files, req.(requestMethod := ToLower(req.requestMethod)), parse, stringify, hmac) ==
            Serve(files, req, parse, stringify, hmac)
  {
    ToLowerIdempotent(req.requestMethod);
  }

  /** A request for "/users/" with method "GET" reaches the users get handler with the
      query it carried, and changes nothing. */
  lemma UsersGetRouted(files: Handlers.Files, query: map<string, JsValue>, chunks: seq<string>,
                       parse: string -> Option<JsValue>, stringify: JsValue -> string, hmac: string -> string)
    ensures var r := Serve(files, IncomingRequest("/users/", query, "GET", chunks), parse, stringify, hmac);
            var reply := Handlers.GetSpec(files, query);
            && r.1 == files
            && r.0 == Responded(reply.status.n, JsonContentType, stringify(ResponsePayload(reply.payload)))
  {
    assert RoutedPath("/users/") == "users" by {
      assert "/users/"[1..] == "users/" && !IsSlash('u');
      assert DropLeading("users/", IsSlash) == "users/";
      assert DropLeading("/users/", IsSlash) == "users/";
      assert "users/"[..5] == "users" && IsSlash('/') && !IsSlash('s');
      assert DropTrailing("users", IsSlash) == "users";
      assert DropTrailing("users/", IsSlash) == "users";
    }
    assert HandlerMethod("GET") == "get";
  }

  /** `unifiedServer` on one request against the store. */
  method UnifiedServer(store: Data.FileStore, req: IncomingRequest, parse: string -> Option<JsValue>,
                       stringify: JsValue -> string, hmac: string -> string) returns (out: ServerOutcome)
    modifies store
    ensures (out, store.files) == Serve(old(store.files), req, parse, stringify, hmac)
  {
    var path := RoutedPath(req.pathname);
    var httpMethod := HandlerMethod(req.requestMethod);
    var body := ReadBody(req.chunks);
    var payload := ParseJsonToObject(parse, body);
    var data := Handlers.Request(path, httpMethod, req.query, payload);
    match ChooseHandler(path)
    case PingRoute =>
      out := Respond(Handlers.Ping(), stringify);
    case NotFoundRoute =>
      out := Respond(Handlers.NotFound(), stringify);
    case InheritedMember(_) =>
      out := NoResponse;
    case UsersRoute =>
      var reply := Handlers.Users(store, data, hmac);
      out := Respond(reply, stringify);
  }
}
