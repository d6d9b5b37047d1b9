/**
 * The security middleware: the null-byte sanitizer that rewrites the string fields of the
 * request body and query in place, the CORS origin allow-list, and the content-type gate.
 * It also captures the order in which the server installs the sanitizer and the JSON body
 * parser.
 */
module Security {
  import opened Wrappers
  import opened Lists
  import opened Text

  /** A field of a parsed body or query string. */
  datatype Value = Str(text: string) | Num(number: real) | Bool(flag: bool) | Null | List(items: seq<Value>)

  type FieldMap = map<string, Value>

  predicate IsNotNul(c: char) { c != '\0' }

  predicate HasNul(s: string) { exists i :: 0 <= i < |s| && s[i] == '\0' }

  /** `s.replace(/\0/g, '')`: every `'\0'` removed, the other characters kept in order. */
  function RemoveNul(s: string): (r: string)
    ensures !HasNul(r)
    ensures |r| <= |s|
    ensures !HasNul(s) ==> r == s
  {
    if HasNul(s) then Filter(s, IsNotNul)
    else FilterAllKept(s, IsNotNul); Filter(s, IsNotNul)
  }

  /** What the sanitizer does to one field: a string loses its null bytes; a number, a
      boolean, null or an array is left as it is. */
  function SanitizeValue(v: Value): Value {
    if v.Str? then Str(RemoveNul(v.text)) else v
  }

  /** The fields after the sanitizer's loop over them. */
  function Sanitized(m: FieldMap): (r: FieldMap)
    ensures r.Keys == m.Keys
  {
    map k | k in m :: SanitizeValue(m[k])
  }

  /** The request object the middleware stack passes along. */
  class Request {
    var body: FieldMap
    var query: FieldMap

    constructor (body: FieldMap, query: FieldMap)
      ensures this.body == body && this.query == query
    {
      this.body := body;
      this.query := query;
    }
  }

  /** `sanitizeInput`: for each key of `req.body`, then of `req.query`, a string value is
      replaced by the same string with its null bytes removed. */
  method SanitizeInput(req: Request)
    modifies req
    ensures req.body == Sanitized(old(req.body))
    ensures req.query == Sanitized(old(req.query))
  {
    SanitizeBody(req);
    SanitizeQuery(req);
  }

  /** The first loop of `sanitizeInput`, over the keys of `req.body`. */
  method SanitizeBody(req: Request)
    modifies req`body
    ensures req.body == Sanitized(old(req.body))
  {
    var keys := req.body.Keys;
    while keys != {}
      invariant keys <= req.body.Keys == old(req.body).Keys
      invariant forall k :: k in keys ==> req.body[k] == old(req.body)[k]
      invariant forall k :: k in req.body && k !in keys ==> req.body[k] == SanitizeValue(old(req.body)[k])
      decreases keys
    {
      var key :| key in keys;
      if req.body[key].Str? {
        req.body := req.body[key := Str(RemoveNul(req.body[key].text))];
      }
      keys := keys - {key};
    }
  }

  /** The second loop of `sanitizeInput`, over the keys of `req.query`. */
  method SanitizeQuery(req: Request)
    modifies req`query
    ensures req.query == Sanitized(old(req.query))
  {
    var keys := req.query.Keys;
    while keys != {}
      invariant keys <= req.query.Keys == old(req.query).Keys
      invariant forall k :: k in keys ==> req.query[k] == old(req.query)[k]
      invariant forall k :: k in req.query && k !in keys ==> req.query[k] == SanitizeValue(old(req.query)[k])
      decreases keys
    {
      var key :| key in keys;
      if req.query[key].Str? {
        req.query := req.query[key := Str(RemoveNul(req.query[key].text))];
      }
      keys := keys - {key};
    }
  }

  /** After the sanitizer no string field contains a null byte. */
  lemma {:induction false} SanitizedHasNoNul(m: FieldMap)
    ensures forall k :: k in Sanitized(m) && Sanitized(m)[k].Str? ==> !HasNul(Sanitized(m)[k].text)
  {
  }

  /** The sanitizer leaves every field that is not a string unchanged, and a string field
      without null bytes unchanged too. */
  lemma {:induction false} SanitizedKeepsOtherFields(m: FieldMap)
    ensures forall k :: k in m && !m[k].Str? ==> Sanitized(m)[k] == m[k]
    ensures forall k :: k in m && m[k].Str? && !HasNul(m[k].text) ==> Sanitized(m)[k] == m[k]
  {
  }

  /** Sanitizing twice is sanitizing once. */
  lemma {:induction false} SanitizeIdempotent(m: FieldMap)
    ensures Sanitized(Sanitized(m)) == Sanitized(m)
  {
    forall k | k in m ensures SanitizeValue(SanitizeValue(m[k])) == SanitizeValue(m[k]) {
      if m[k].Str? {
        FilterIdempotent(m[k].text, IsNotNul);
      }
    }
  }

  /** Removing null bytes works piece by piece, so the surviving characters keep their order. */
  lemma {:induction false} RemoveNulConcat(a: string, b: string)
    ensures RemoveNul(a + b) == RemoveNul(a) + RemoveNul(b)
  {
    FilterConcat(a, b, IsNotNul);
  }

  /** `express.json()`: `req.body` becomes the parsed JSON body. */
  method ParseJsonBody(req: Request, parsed: FieldMap)
    modifies req`body
    ensures req.body == parsed
  {
    req.body := parsed;
  }

  /** The server's order: the sanitizer is installed before the JSON parser, so it runs while
      `req.body` is still undefined (no keys) and the parsed body reaches the routes as sent. */
  method MiddlewareAsWritten(req: Request, parsed: FieldMap)
    requires req.body == map[]
    modifies req
    ensures req.body == parsed
    ensures req.query == Sanitized(old(req.query))
  {
    SanitizeInput(req);
    ParseJsonBody(req, parsed);
  }

  /** The order the sanitizer needs: parse the body first, then remove null bytes. */
  method Middleware(req: Request, parsed: FieldMap)
    requires req.body == map[]
    modifies req
    ensures req.body == Sanitized(parsed)
    ensures req.query == Sanitized(old(req.query))
    ensures forall k :: k in req.body && req.body[k].Str? ==> !HasNul(req.body[k].text)
  {
    ParseJsonBody(req, parsed);
    SanitizeInput(req);
    SanitizedHasNoNul(parsed);
  }

  /** Removing the only null byte of a string leaves the characters around it, joined. */
  lemma {:induction false} RemoveOneNul(a: string, b: string)
    requires !HasNul(a) && !HasNul(b)
    ensures RemoveNul(a + "\0" + b) == a + b
  {
    RemoveNulConcat(a + "\0", b);
    RemoveNulConcat(a, "\0");
    assert !IsNotNul("\0"[0]);
    assert Filter("\0", IsNotNul) == Filter("\0"[1..], IsNotNul);
  }

  lemma {:induction false} JoinAdMin()
    ensures "ad" + "min" == "admin"
  {
  }

  /** A body field "ad\0min" keeps its null byte when the parser runs after the sanitizer,
      and loses it when the parser runs first. */
  lemma {:induction false} NulSurvivesInBody()
    ensures var parsed := map["username" := Str("ad\0min")];
            HasNul(parsed["username"].text) && Sanitized(parsed)["username"] == Str("admin")
  {
    var s := "ad\0min";
    assert s[2] == '\0';
    assert !HasNul("ad") && !HasNul("min");
    assert s == "ad" + "\0" + "min";
    RemoveOneNul("ad", "min");
    assert "ad" + "min" == "admin" by { JoinAdMin(); }
    var parsed := map["username" := Str(s)];
    assert Sanitized(parsed)["username"] == SanitizeValue(Str(s)) == Str(RemoveNul(s));
  }

  // ----- CORS -----

  /** The origins `corsOptions.origin` accepts. */
  const AllowedOrigins: seq<string> :=
    ["http://localhost:3000", "http://localhost:3001", "http://localhost:5173",
     "http://127.0.0.1:3000", "http://127.0.0.1:5173"]

  /** What the origin callback reports: `callback(null, true)` or the error "Not allowed by CORS". */
  datatype CorsDecision = Allow | Deny(message: string)

  /** `corsOptions.origin`: a request without an origin (undefined or empty) is allowed;
      otherwise the origin must be one of the listed ones, compared exactly. */
  function CorsOrigin(origin: Option<string>): (d: CorsDecision)
    ensures d == Allow <==> !Truthy(origin) || origin.value in AllowedOrigins
    ensures d.Deny? ==> d.message == "Not allowed by CORS"
  {
    if !Truthy(origin) then Allow
    else if FindIndex(AllowedOrigins, (o: string) => o == origin.value).Some? then Allow
    else Deny("Not allowed by CORS")
  }

  /** Every listed origin has 21 characters and starts with a lower-case `h`, so an origin
      of another length or starting with another character is refused. */
  lemma {:induction false} CorsRefusesByShape(x: string)
    requires x != "" && (|x| != 21 || x[0] != 'h')
    ensures CorsOrigin(Some(x)).Deny?
  {
    assert forall a :: a in AllowedOrigins ==> |a| == 21 && a[0] == 'h';
  }

  /** The comparison is exact: a listed origin is allowed, and the same origin with a
      trailing slash, with an upper-case scheme or with `https` is refused. */
  lemma {:induction false} CorsIsExact()
    ensures CorsOrigin(Some("http://localhost:3000")) == Allow
    ensures CorsOrigin(Some("http://localhost:3000/")).Deny?
    ensures CorsOrigin(Some("HTTP://localhost:3000")).Deny?
    ensures CorsOrigin(Some("https://localhost:3000")).Deny?
  {
    assert AllowedOrigins[0] == "http://localhost:3000";
    CorsRefusesByShape("http://localhost:3000/");
    CorsRefusesByShape("HTTP://localhost:3000");
    CorsRefusesByShape("https://localhost:3000");
  }

  // ----- Content type -----

  /** The methods whose requests carry a body the gate checks. */
  const BodyMethods: seq<string> := ["POST", "PUT", "PATCH"]

  /** What `validateContentType` does: call `next()`, or answer with a status and message. */
  datatype ContentGate = Pass | Refuse(status: nat, message: string)

  /** `validateContentType`; `isType` is `req.is`, which tests the request's content type. */
  function ValidateContentType(verb: string, isType: string -> bool): (g: ContentGate)
    ensures g.Refuse? <==> verb in BodyMethods && !isType("application/json") && !isType("multipart/form-data")
    ensures g.Refuse? ==>
      g == Refuse(400, "Content-Type must be application/json or multipart/form-data")
  {
    if verb in BodyMethods && !isType("application/json") && !isType("multipart/form-data")
    then Refuse(400, "Content-Type must be application/json or multipart/form-data")
    else Pass
  }

  /** Only POST, PUT and PATCH are ever refused, whatever the content type; a JSON or
      multipart request always passes. */
  lemma {:induction false} ContentTypeGateScope(verb: string, isType: string -> bool)
    ensures verb !in BodyMethods ==> ValidateContentType(verb, isType) == Pass
    ensures isType("application/json") || isType("multipart/form-data") ==> ValidateContentType(verb, isType) == Pass
    ensures ValidateContentType("GET", isType) == Pass && ValidateContentType("DELETE", isType) == Pass
  {
    assert "GET" !in BodyMethods by {
      assert "GET"[0] != "POST"[0] && "GET"[0] != "PUT"[0] && "GET"[0] != "PATCH"[0];
    }
    assert "DELETE" !in BodyMethods by {
      assert "DELETE"[0] != "POST"[0] && "DELETE"[0] != "PUT"[0] && "DELETE"[0] != "PATCH"[0];
    }
  }
}
