/**
 * Assembly and outcome of the two request flavours of the Node connection
 * (src/node/connection/Connection.js:116-214): `request`, which writes into the connection's
 * shared request options and surfaces errors as they are, and `requestFile`, which works on a
 * copy, asks for a binary response on GET and wraps every error in `KintoneAPIException`.
 *
 * The functions here describe one call as a value; the methods of `Connections.Connection`
 * perform the same steps on the connection's fields and are proved to agree with them.
 */
module Requests {
  import opened Optional
  import opened Headers
  import opened Agents

  const ContentTypeKey := "Content-Type"
  const FileResponseTypeValue := "arraybuffer"
  const FileFieldName := "file"
  const FileApiName := "FILE"

  /** One part of a multipart body: field name, content and file name. */
  datatype Part = Part(name: string, content: string, fileName: string)

  /** A request body: a JSON-style value (opaque here) or a multipart form. */
  datatype Body = Json(value: string) | Form(parts: seq<Part>)

  /**
   * The request options object handed to the HTTP transport. Only the keys this code reads
   * or writes are modelled; `paramsSerializer` records whether the base connection's query
   * serializer has been attached.
   */
  datatype Options = Options(
    httpMethod: Option<string>,
    url: Option<string>,
    headers: Option<HeaderMap>,
    params: Option<Body>,
    paramsSerializer: bool,
    data: Option<Body>,
    responseType: Option<string>,
    httpsAgent: Option<Agent>)

  /** An error raised by the TLS engine or the transport; its content is opaque here. */
  datatype Error = Error(message: string)

  /** How a rejection reaches the caller: as raised, or wrapped in the domain error type. */
  datatype Failure = Raw(error: Error) | KintoneAPIException(cause: Error)

  /** What a call's promise settles to: the response payload, or a rejection. */
  datatype Reply = Resolved(data: string) | Rejected(failure: Failure)

  /** What the transport does with a request: a response whose payload is `data`, or an error. */
  datatype Outcome = Ok(data: string) | Err(error: Error)

  /** `tls.createSecureContext` applied to an agent's options: `Some(err)` when it throws. */
  type TlsEngine = AgentOptions -> Option<Error>

  /** The HTTP transport, given the options object at the moment of dispatch. */
  type Transport = Options -> Outcome

  // ---------------------------------------------------------------------------------------
  // Method name normalisation

  function UpperChar(c: char): char
  {
    if 'a' <= c <= 'z' then (c as int - 32) as char else c
  }

  /** `String(methodName).toUpperCase()`, for ASCII letters. */
  function Upper(s: string): (r: string)
    ensures |r| == |s|
    ensures forall i :: 0 <= i < |s| ==> r[i] == UpperChar(s[i])
    ensures forall i :: 0 <= i < |r| ==> !('a' <= r[i] <= 'z')
  {
    if s == [] then [] else [UpperChar(s[0])] + Upper(s[1..])
  }

  /** A method name selects the query-string encoding exactly when it spells "get" in any case. */
  lemma UpperIsGet(m: string)
    ensures Upper(m) == "GET" <==>
              |m| == 3 && m[0] in {'g', 'G'} && m[1] in {'e', 'E'} && m[2] in {'t', 'T'}
  {
    if Upper(m) == "GET" {
      assert Upper(m)[0] == 'G' && Upper(m)[1] == 'E' && Upper(m)[2] == 'T';
    }
  }

  // ---------------------------------------------------------------------------------------
  // One call, step by step

  /** Method, URL and merged headers written into the options. */
  function Assemble(base: Options, methodName: string, url: string, headers: HeaderMap): Options
  {
    base.(httpMethod := Some(Upper(methodName)), url := Some(url), headers := Some(headers))
  }

  /** The TLS preflight: it runs only when an `httpsAgent` option is present. */
  function Preflight(o: Options, tls: TlsEngine): Option<Error>
  {
    if o.httpsAgent.Some? then tls(o.httpsAgent.value.options) else None
  }

  /** Body placement of `request`: query parameters (and no data) for GET, data otherwise. */
  function PlaceJsonBody(o: Options, body: Body): Options
  {
    if o.httpMethod == Some("GET") then o.(params := Some(body), paramsSerializer := true, data := None)
    else o.(data := Some(body))
  }

  /** Body placement of `requestFile`: query parameters and a binary response type for GET, data otherwise. */
  function PlaceFileBody(o: Options, body: Body): Options
  {
    if o.httpMethod == Some("GET") then o.(params := Some(body), responseType := Some(FileResponseTypeValue))
    else o.(data := Some(body))
  }

  /**
   * The result of one call: the options object as it stands afterwards (for `request` this
   * is the connection's shared object, for `requestFile` its private copy), whether the
   * request was dispatched (and the headers refreshed), and the reply.
   */
  datatype Call = Call(options: Options, dispatched: bool, reply: Reply)

  /** `request(methodName, restAPIName, body)` on the shared options `shared`. */
  function JsonCall(shared: Options, merged: HeaderMap, methodName: string, url: string, body: Body,
                    tls: TlsEngine, transport: Transport): Call
  {
    var d := Assemble(shared, methodName, url, merged);
    match Preflight(d, tls)
    case Some(err) => Call(d, false, Rejected(Raw(err)))
    case None =>
      var o := PlaceJsonBody(d, body);
      match transport(o)
      case Ok(data) => Call(o, true, Resolved(data))
      case Err(e) => Call(o, true, Rejected(Raw(e)))
  }

  /** `requestFile(methodName, restAPIName, body)` on a copy of the options `base`. */
  function FileCall(base: Options, merged: HeaderMap, methodName: string, url: string, body: Body,
                    tls: TlsEngine, transport: Transport): Call
  {
    var d := Assemble(base, methodName, url, merged);
    match Preflight(d, tls)
    case Some(err) => Call(d, false, Rejected(KintoneAPIException(err)))
    case None =>
      var o := PlaceFileBody(d, body);
      match transport(o)
      case Ok(data) => Call(o, true, Resolved(data))
      case Err(e) => Call(o, true, Rejected(KintoneAPIException(e)))
  }

  /** The single-part multipart body `upload` builds. */
  function FileForm(fileName: string, fileContent: string): Body
  {
    Form([Part(FileFieldName, fileContent, fileName)])
  }

  // ---------------------------------------------------------------------------------------
  // Properties of the two flavours

  /**
   * Both flavours send the upper-cased method, the resolved URL and exactly the merged
   * headers, and keep the transport agent they were given; the preflight does not undo these
   * writes.
   */
  lemma DescriptorCore(base: Options, merged: HeaderMap, m: string, url: string, body: Body,
                       tls: TlsEngine, transport: Transport)
    ensures var c := JsonCall(base, merged, m, url, body, tls, transport);
            c.options.httpMethod == Some(Upper(m)) && c.options.url == Some(url)
            && c.options.headers == Some(merged) && c.options.httpsAgent == base.httpsAgent
    ensures var c := FileCall(base, merged, m, url, body, tls, transport);
            c.options.httpMethod == Some(Upper(m)) && c.options.url == Some(url)
            && c.options.headers == Some(merged) && c.options.httpsAgent == base.httpsAgent
  {
  }

  /** `request` with GET: the body becomes the query parameters, the serializer is set, no data. */
  lemma JsonGetUsesQuery(base: Options, merged: HeaderMap, m: string, url: string, body: Body,
                         tls: TlsEngine, transport: Transport)
    requires Upper(m) == "GET"
    requires Preflight(Assemble(base, m, url, merged), tls).None?
    ensures var c := JsonCall(base, merged, m, url, body, tls, transport);
            c.dispatched && c.options.params == Some(body) && c.options.paramsSerializer
            && c.options.data.None? && c.options.responseType == base.responseType
  {
  }

  /**
   * `request` with any other method: the body becomes the data; the query parameters and
   * serializer are whatever the shared options already held.
   */
  lemma JsonOtherUsesData(base: Options, merged: HeaderMap, m: string, url: string, body: Body,
                          tls: TlsEngine, transport: Transport)
    requires Upper(m) != "GET"
    requires Preflight(Assemble(base, m, url, merged), tls).None?
    ensures var c := JsonCall(base, merged, m, url, body, tls, transport);
            c.dispatched && c.options.data == Some(body) && c.options.params == base.params
            && c.options.paramsSerializer == base.paramsSerializer && c.options.responseType == base.responseType
  {
  }

  /** `requestFile` with GET: query parameters and a binary response type; any data already present stays. */
  lemma FileGetUsesQuery(base: Options, merged: HeaderMap, m: string, url: string, body: Body,
                         tls: TlsEngine, transport: Transport)
    requires Upper(m) == "GET"
    requires Preflight(Assemble(base, m, url, merged), tls).None?
    ensures var c := FileCall(base, merged, m, url, body, tls, transport);
            c.dispatched && c.options.params == Some(body)
            && c.options.responseType == Some(FileResponseTypeValue) && c.options.data == base.data
            && c.options.paramsSerializer == base.paramsSerializer
  {
  }

  /** `requestFile` with any other method: only the data is set. */
  lemma FileOtherUsesData(base: Options, merged: HeaderMap, m: string, url: string, body: Body,
                          tls: TlsEngine, transport: Transport)
    requires Upper(m) != "GET"
    requires Preflight(Assemble(base, m, url, merged), tls).None?
    ensures var c := FileCall(base, merged, m, url, body, tls, transport);
            c.dispatched && c.options.data == Some(body) && c.options.params == base.params
            && c.options.responseType == base.responseType && c.options.paramsSerializer == base.paramsSerializer
  {
  }

  /** Without an `httpsAgent` option no preflight runs: both flavours dispatch. */
  lemma NoAgentNoPreflight(base: Options, merged: HeaderMap, m: string, url: string, body: Body,
                           tls: TlsEngine, transport: Transport)
    requires base.httpsAgent.None?
    ensures JsonCall(base, merged, m, url, body, tls, transport).dispatched
    ensures FileCall(base, merged, m, url, body, tls, transport).dispatched
  {
  }

  /**
   * A failing preflight stops both flavours before dispatch (and before the header refresh):
   * `request` rejects with the TLS error itself, `requestFile` with it wrapped.
   */
  lemma PreflightFailureShapes(base: Options, merged: HeaderMap, m: string, url: string, body: Body,
                               tls: TlsEngine, transport: Transport, err: Error)
    requires Preflight(Assemble(base, m, url, merged), tls) == Some(err)
    ensures var c := JsonCall(base, merged, m, url, body, tls, transport);
            !c.dispatched && c.reply == Rejected(Raw(err))
    ensures JsonCall(base, merged, m, url, body, tls, transport).options == Assemble(base, m, url, merged)
    ensures var c := FileCall(base, merged, m, url, body, tls, transport);
            !c.dispatched && c.reply == Rejected(KintoneAPIException(err))
  {
  }

  /**
   * After a passing preflight, both flavours settle to the transport's payload on success;
   * on a transport error `request` rejects with it as it is and `requestFile` wraps it.
   */
  lemma DispatchShapes(base: Options, merged: HeaderMap, m: string, url: string, body: Body,
                       tls: TlsEngine, transport: Transport)
    requires Preflight(Assemble(base, m, url, merged), tls).None?
    ensures var c := JsonCall(base, merged, m, url, body, tls, transport);
            c.dispatched
            && c.reply == match transport(c.options) case Ok(d) => Resolved(d) case Err(e) => Rejected(Raw(e))
    ensures var c := FileCall(base, merged, m, url, body, tls, transport);
            c.dispatched
            && c.reply == match transport(c.options) case Ok(d) => Resolved(d) case Err(e) => Rejected(KintoneAPIException(e))
  {
  }

  /** Every rejection of `requestFile` is a `KintoneAPIException`; no rejection of `request` is. */
  lemma RejectionShapes(base: Options, merged: HeaderMap, m: string, url: string, body: Body,
                        tls: TlsEngine, transport: Transport)
    ensures var r := FileCall(base, merged, m, url, body, tls, transport).reply;
            r.Rejected? ==> r.failure.KintoneAPIException?
    ensures var r := JsonCall(base, merged, m, url, body, tls, transport).reply;
            r.Rejected? ==> r.failure.Raw?
  {
  }

  /**
   * The upload request: a POST whose data is the one-part form under the field name "file",
   * and whose headers carry the encoder's content type, which `upload` appended last.
   */
  lemma UploadDescriptor(base: Options, creds: seq<Header>, hs: seq<Header>, userAgentKey: string,
                         url: string, fileName: string, fileContent: string, contentType: string,
                         tls: TlsEngine, transport: Transport)
    requires userAgentKey != ContentTypeKey
    requires Preflight(Assemble(base, "POST", url, Merge(creds, hs + [Header(ContentTypeKey, contentType)], userAgentKey)), tls).None?
    ensures var merged := Merge(creds, hs + [Header(ContentTypeKey, contentType)], userAgentKey);
            var c := FileCall(base, merged, "POST", url, FileForm(fileName, fileContent), tls, transport);
            && c.dispatched
            && c.options.httpMethod == Some("POST")
            && c.options.data == Some(Form([Part("file", fileContent, fileName)]))
            && c.options.headers.Some?
            && Lookup(c.options.headers.value, "Content-Type") == Some(contentType)
  {
    AppendedHeaderWins(creds, hs, userAgentKey, ContentTypeKey, contentType);
    assert Upper("POST") == "POST";
  }
}
