/**
 * The Node `Connection` class (src/node/connection/Connection.js:16-215) as a state machine
 * over its request options, its header list and its `USER_AGENT` field.
 *
 * The pieces of the base connection whose code is not part of this model are fixed at
 * construction: the user-agent header key, URI resolution (`getUri`), the TLS engine's
 * secure-context check, the initial options and the header list `refreshHeader` restores.
 */
module Connections {
  import opened Optional
  import opened Headers
  import opened Agents
  import opened Requests

  class Connection {
    const auth: Auth
    const userAgentKey: string
    const getUri: string -> string
    const tls: TlsEngine
    const baseHeaders: seq<Header>

    var options: Options
    var headers: seq<Header>
    var userAgent: Option<string>
    /** How many times the header list has been refreshed. */
    ghost var refreshes: nat

    /** The base constructor, then `setClientCert()`. */
    constructor(auth: Auth, userAgentKey: string, getUri: string -> string, tls: TlsEngine,
                baseOptions: Options, baseHeaders: seq<Header>)
      ensures this.auth == auth && this.userAgentKey == userAgentKey && this.getUri == getUri
      ensures this.tls == tls && this.baseHeaders == baseHeaders
      ensures options == match ClientCertAgent(auth)
                         case None => baseOptions
                         case Some(agent) => baseOptions.(httpsAgent := Some(agent))
      ensures headers == baseHeaders && userAgent == None && refreshes == 0
    {
      this.auth := auth;
      this.userAgentKey := userAgentKey;
      this.getUri := getUri;
      this.tls := tls;
      this.baseHeaders := baseHeaders;
      options := baseOptions;
      headers := baseHeaders;
      userAgent := None;
      refreshes := 0;
      new;
      SetClientCert();
    }

    // -------------------------------------------------------------------------------------
    // Base-connection helpers, with the behaviour this class relies on

    /** `addRequestOption({key: HTTPS_AGENT, value: agent})`. */
    method AddHttpsAgent(agent: Agent)
      modifies this`options
      ensures options == old(options).(httpsAgent := Some(agent))
    {
      options := options.(httpsAgent := Some(agent));
    }

    /** `setHeader({key, value})`: appends an entry to the header list. */
    method SetHeader(key: string, value: string)
      modifies this`headers
      ensures headers == old(headers) + [Header(key, value)]
    {
      headers := headers + [Header(key, value)];
    }

    /** `refreshHeader()`: restores the connection's base header list. */
    method RefreshHeader()
      modifies this`headers, this`refreshes
      ensures headers == baseHeaders && refreshes == old(refreshes) + 1
    {
      headers := baseHeaders;
      refreshes := refreshes + 1;
    }

    // -------------------------------------------------------------------------------------
    // Transport agent configuration

    /** Installs a client-certificate agent when the authentication carries certificate data. */
    method SetClientCert()
      modifies this`options
      ensures auth.clientCertData.None? ==> options == old(options)
      ensures auth.clientCertData.Some? ==> options == old(options).(httpsAgent := ClientCertAgent(auth))
    {
      if auth.clientCertData.None? {
        return;
      }
      AddHttpsAgent(ClientCertAgent(auth).value);
    }

    /** Installs an agent tunnelling through an HTTP proxy, replacing any previous agent. */
    method SetProxy(p: ProxySettings) returns (self: Connection)
      modifies this`options
      ensures self == this
      ensures options == old(options).(httpsAgent := Some(OverHttp(TunnelOptions(p, auth))))
    {
      var option := TunnelOptions(p, auth);
      AddHttpsAgent(OverHttp(option));
      self := this;
    }

    /** Installs an agent tunnelling through an HTTPS proxy, replacing any previous agent. */
    method SetHttpsProxy(p: ProxySettings) returns (self: Connection)
      modifies this`options
      ensures self == this
      ensures options == old(options).(httpsAgent := Some(OverHttps(TunnelOptions(p, auth))))
    {
      var option := TunnelOptions(p, auth);
      AddHttpsAgent(OverHttps(option));
      self := this;
    }

    // -------------------------------------------------------------------------------------
    // Requests

    /**
     * The header merge both request flavours start with: credential headers first, then the
     * connection's header list, recording the user-agent entry after every instance header.
     */
    method MergeHeaders() returns (merged: HeaderMap)
      modifies this`userAgent
      ensures merged == Merge(auth.credentials, headers, userAgentKey)
      ensures userAgent == TrackedUserAgent(old(userAgent), auth.credentials, headers, userAgentKey)
    {
      merged := map[];
      var creds := auth.credentials;
      for i := 0 to |creds|
        invariant merged == SeedCredentials(creds[..i])
      {
        assert creds[..i + 1][..i] == creds[..i];
        merged := merged[creds[i].key := creds[i].value];
      }
      assert creds[..|creds|] == creds;
      for j := 0 to |headers|
        invariant merged == FoldInstance(SeedCredentials(creds), headers[..j], userAgentKey)
        invariant userAgent == if j == 0 then old(userAgent) else Lookup(merged, userAgentKey)
      {
        assert headers[..j + 1][..j] == headers[..j];
        var h := headers[j];
        if h.key in merged && h.key == userAgentKey {
          merged := merged[h.key := merged[h.key] + " " + h.value];
        } else {
          merged := merged[h.key := h.value];
        }
        userAgent := Lookup(merged, userAgentKey);
      }
      assert headers[..|headers|] == headers;
    }

    /**
     * `request(methodName, restAPIName, body)`: assembles the request in the shared options,
     * runs the TLS preflight, places the body, dispatches and refreshes the headers.
     */
    method Request(methodName: string, restAPIName: string, body: Body, transport: Transport)
      returns (reply: Reply)
      modifies this`options, this`headers, this`userAgent, this`refreshes
      ensures userAgent == TrackedUserAgent(old(userAgent), auth.credentials, old(headers), userAgentKey)
      ensures var c := JsonCall(old(options), Merge(auth.credentials, old(headers), userAgentKey),
                                methodName, getUri(restAPIName), body, tls, transport);
              && options == c.options
              && reply == c.reply
              && headers == (if c.dispatched then baseHeaders else old(headers))
              && refreshes == old(refreshes) + (if c.dispatched then 1 else 0)
    {
      var merged := MergeHeaders();
      options := options.(httpMethod := Some(Upper(methodName)));
      options := options.(url := Some(getUri(restAPIName)));
      options := options.(headers := Some(merged));

      if options.httpsAgent.Some? {
        var err := tls(options.httpsAgent.value.options);
        if err.Some? {
          return Rejected(Raw(err.value));
        }
      }

      if options.httpMethod == Some("GET") {
        options := options.(params := Some(body));
        options := options.(paramsSerializer := true);
        options := options.(data := None);
      } else {
        options := options.(data := Some(body));
      }
      var outcome := transport(options);
      reply := match outcome
               case Ok(data) => Resolved(data)
               case Err(e) => Rejected(Raw(e));
      RefreshHeader();
    }

    /**
     * `requestFile(methodName, restAPIName, body)`: the same steps on a copy of the options,
     * asking for a binary response on GET and wrapping every error.
     */
    method RequestFile(methodName: string, restAPIName: string, body: Body, transport: Transport)
      returns (reply: Reply)
      modifies this`headers, this`userAgent, this`refreshes
      ensures options == old(options)
      ensures userAgent == TrackedUserAgent(old(userAgent), auth.credentials, old(headers), userAgentKey)
      ensures var c := FileCall(options, Merge(auth.credentials, old(headers), userAgentKey),
                                methodName, getUri(restAPIName), body, tls, transport);
              && reply == c.reply
              && headers == (if c.dispatched then baseHeaders else old(headers))
              && refreshes == old(refreshes) + (if c.dispatched then 1 else 0)
    {
      var merged := MergeHeaders();
      var requestOptions := options;
      requestOptions := requestOptions.(httpMethod := Some(Upper(methodName)));
      requestOptions := requestOptions.(url := Some(getUri(restAPIName)));
      requestOptions := requestOptions.(headers := Some(merged));

      if requestOptions.httpsAgent.Some? {
        var err := tls(requestOptions.httpsAgent.value.options);
        if err.Some? {
          return Rejected(KintoneAPIException(err.value));
        }
      }

      if requestOptions.httpMethod == Some("GET") {
        requestOptions := requestOptions.(params := Some(body));
        requestOptions := requestOptions.(responseType := Some(FileResponseTypeValue));
      } else {
        requestOptions := requestOptions.(data := Some(body));
      }
      var outcome := transport(requestOptions);
      reply := match outcome
               case Ok(data) => Resolved(data)
               case Err(e) => Rejected(KintoneAPIException(e));
      RefreshHeader();
    }

    /**
     * `upload(fileName, fileContent)`: a one-part form under the field name "file", its
     * content type (produced by the form encoder, passed in as `contentType`) appended to the
     * header list, then a POST of the form to the file endpoint.
     */
    method Upload(fileName: string, fileContent: string, contentType: string, transport: Transport)
      returns (reply: Reply)
      modifies this`headers, this`userAgent, this`refreshes
      ensures options == old(options)
      ensures var hs := old(headers) + [Header(ContentTypeKey, contentType)];
              var c := FileCall(options, Merge(auth.credentials, hs, userAgentKey),
                                "POST", getUri(FileApiName), FileForm(fileName, fileContent), tls, transport);
              && userAgent == TrackedUserAgent(old(userAgent), auth.credentials, hs, userAgentKey)
              && reply == c.reply
              && headers == (if c.dispatched then baseHeaders else hs)
              && refreshes == old(refreshes) + (if c.dispatched then 1 else 0)
    {
      var formData := FileForm(fileName, fileContent);
      SetHeader(ContentTypeKey, contentType);
      reply := RequestFile("POST", FileApiName, formData, transport);
    }
  }

  // ---------------------------------------------------------------------------------------
  // Sequences of calls

  /**
   * Configuring a client certificate, then an HTTP proxy, then an HTTPS proxy leaves only the
   * HTTPS tunnelling agent, carrying the certificate when the authentication has one.
   */
  method ConfigureAgents(c: Connection, plain: ProxySettings, secure: ProxySettings)
    modifies c`options
    ensures c.options == old(c.options).(httpsAgent := Some(OverHttps(TunnelOptions(secure, c.auth))))
    ensures c.options.httpsAgent.value.options.pfx == c.auth.clientCertData
  {
    c.SetClientCert();
    var _ := c.SetProxy(plain);
    var _ := c.SetHttpsProxy(secure);
  }

  /**
   * `request` shares its options object across calls: when the TLS preflight passes (or no
   * agent is configured), a GET followed by a POST sends the POST with the GET's query
   * parameters still attached, next to the POST's own data.
   */
  method GetThenPost(c: Connection, getApi: string, postApi: string, query: Body, payload: Body, transport: Transport)
    requires c.options.httpsAgent.None? || c.tls(c.options.httpsAgent.value.options).None?
    modifies c`options, c`headers, c`userAgent, c`refreshes
    ensures c.options.httpMethod == Some("POST")
    ensures c.options.params == Some(query) && c.options.paramsSerializer
    ensures c.options.data == Some(payload)
  {
    assert Upper("GET") == "GET" && Upper("POST") == "POST";
    var _ := c.Request("GET", getApi, query, transport);
    var _ := c.Request("POST", postApi, payload, transport);
  }

  /** `requestFile` never changes the shared options, whatever `request` left in them. */
  method FileAfterRequest(c: Connection, api: string, m: string, body: Body, fileBody: Body, transport: Transport)
    modifies c`options, c`headers, c`userAgent, c`refreshes
    ensures c.options == JsonCall(old(c.options), Merge(c.auth.credentials, old(c.headers), c.userAgentKey),
                                  m, c.getUri(api), body, c.tls, transport).options
  {
    var _ := c.Request(m, api, body, transport);
    var _ := c.RequestFile("GET", api, fileBody, transport);
  }
}
