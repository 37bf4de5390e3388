/**
 * The transport agents a connection can install under its `httpsAgent` request option
 * (src/node/connection/Connection.js:35-94): a client-certificate agent, or a tunnelling agent
 * through an HTTP or an HTTPS proxy. Only the option record each agent is built from is
 * modelled; the agents' own behaviour belongs to the TLS and tunnelling libraries.
 */
module Agents {
  import opened Optional
  import opened Headers

  type Bytes = seq<bv8>

  /**
   * What the connection reads from its authentication object: the credential headers, the
   * client-certificate data (a buffer, or absent) and the certificate passphrase.
   */
  datatype Auth = Auth(credentials: seq<Header>, clientCertData: Option<Bytes>, passwordCert: string)

  /** The argument of `setProxy` and `setHttpsProxy`; absent user name or password is `None`. */
  datatype ProxySettings = ProxySettings(
    proxyHost: string,
    proxyPort: string,
    proxyUsername: Option<string>,
    proxyPassword: Option<string>)

  /** The `proxy` record handed to the tunnelling library. */
  datatype Proxy = Proxy(host: string, port: string, proxyAuth: Option<string>)

  /** The option record an agent is created from (and later exposes as `agent.options`). */
  datatype AgentOptions = AgentOptions(proxy: Option<Proxy>, pfx: Option<Bytes>, passphrase: Option<string>)

  /** `new https.Agent(...)`, `tunnel.httpsOverHttp(...)` and `tunnel.httpsOverHttps(...)`. */
  datatype Agent =
    | ClientCert(options: AgentOptions)
    | OverHttp(options: AgentOptions)
    | OverHttps(options: AgentOptions)

  /** JavaScript truthiness of an optional string: present and non-empty. */
  predicate Truthy(s: Option<string>)
  {
    s.Some? && s.value != ""
  }

  /**
   * The agent `setClientCert` installs: none without certificate data (a buffer is truthy even
   * when empty), otherwise one carrying the certificate and its passphrase and no proxy.
   */
  function ClientCertAgent(auth: Auth): (r: Option<Agent>)
    ensures r.Some? <==> auth.clientCertData.Some?
    ensures r.Some? ==> r.value.ClientCert? && r.value.options.proxy.None?
    ensures r.Some? ==> (r.value.options.pfx == auth.clientCertData && r.value.options.passphrase == Some(auth.passwordCert))
  {
    match auth.clientCertData
    case None => None
    case Some(cert) => Some(ClientCert(AgentOptions(None, Some(cert), Some(auth.passwordCert))))
  }

  /**
   * The option record `setProxy` and `setHttpsProxy` build: the proxy host and port, a
   * `user:password` proxy credential only when both parts are truthy, and the client
   * certificate with its passphrase only when certificate data is present.
   */
  function TunnelOptions(p: ProxySettings, auth: Auth): (r: AgentOptions)
    ensures r.proxy.Some? && r.proxy.value.host == p.proxyHost && r.proxy.value.port == p.proxyPort
    ensures r.proxy.value.proxyAuth.Some? <==> Truthy(p.proxyUsername) && Truthy(p.proxyPassword)
    ensures r.proxy.value.proxyAuth.Some? ==>
              r.proxy.value.proxyAuth.value == p.proxyUsername.value + ":" + p.proxyPassword.value
    ensures r.pfx == auth.clientCertData
    ensures r.passphrase == if auth.clientCertData.Some? then Some(auth.passwordCert) else None
  {
    var proxyAuth :=
      if Truthy(p.proxyUsername) && Truthy(p.proxyPassword)
      then Some(p.proxyUsername.value + ":" + p.proxyPassword.value)
      else None;
    var proxy := Proxy(p.proxyHost, p.proxyPort, proxyAuth);
    if auth.clientCertData.Some? then AgentOptions(Some(proxy), auth.clientCertData, Some(auth.passwordCert))
    else AgentOptions(Some(proxy), None, None)
  }

  /** The proxy credential can be split back into the user name and password it came from. */
  lemma ProxyAuthSplits(p: ProxySettings, auth: Auth)
    requires Truthy(p.proxyUsername) && Truthy(p.proxyPassword) && ':' !in p.proxyUsername.value
    ensures var cred := TunnelOptions(p, auth).proxy.value.proxyAuth.value;
            var n := |p.proxyUsername.value|;
            n < |cred| && cred[n] == ':' && (forall i :: 0 <= i < n ==> cred[i] != ':')
            && cred[..n] == p.proxyUsername.value && cred[n + 1..] == p.proxyPassword.value
  {
  }
}
