# Node connection of the kintone JavaScript SDK, modelled in Dafny

This project models the Node `Connection` class of the kintone JavaScript SDK
(`src/node/connection/Connection.js`). That class sits between the SDK's REST API wrappers
and the HTTP transport. The model treats it as a state machine over three fields: the
request options object (`options`), the header list (`headers`) and the recorded user-agent
value (`userAgent`, the source's `USER_AGENT`). Each public operation is one transition:

- the **header merge** seeds a header object from the credential headers, then folds in the
  connection's header list; an existing key is overwritten, except the user-agent key,
  whose values are joined with a single space;
- **`request`** writes method, URL and merged headers into the *shared* options object. It
  then runs the TLS preflight when an `httpsAgent` option exists. It places the body in
  `params` (GET) or `data` (any other method), dispatches, and surfaces errors as raised;
- **`requestFile`** does the same on a *copy* of the options object. For GET it also asks for
  an `arraybuffer` response, and it wraps every error in `KintoneAPIException`;
- **`setClientCert`, `setProxy`, `setHttpsProxy`** install a transport agent under the single
  `httpsAgent` option, so the last call wins;
- **`upload`** builds a one-part form under the field name `file`, appends the encoder's
  content type to the header list and sends the form with `requestFile('POST', 'FILE', …)`.

Files:

- `option.dfy`: module `Optional` (`None` is JavaScript's `undefined`).
- `headers.dfy`: module `Headers`, the merge as the code computes it (`Merge`). It also holds
  an independent description of the merged value under every key (`Expected`), and the
  lemmas connecting the two.
- `agents.dfy`: module `Agents`, the authentication data the class reads, the proxy
  settings, and the agent as a tagged datatype `ClientCert | OverHttp | OverHttps`
  carrying its option record.
- `requests.dfy`: module `Requests`, the options record, method upper-casing, and one call
  of each flavour described as a value (`JsonCall`, `FileCall`). Lemmas cover body
  placement, preflight and error shaping.
- `connection.dfy`: module `Connections`, the class `Connection`. Its methods carry the
  source's loops and in-place updates and are proved equal to the functions above. It also
  has three client methods that chain calls.

External pieces are inputs. `getUri`, the TLS engine's secure-context check and the
user-agent key are fixed when the connection is built. So are the initial options and the
header list that `refreshHeader` restores. The transport is a function from the options
object at dispatch time to `Ok(data)` or `Err(error)`. The multipart content type is a
parameter of `Upload`.

Three behaviours of the code a caller may not expect:

- `request` writes into the shared `this.options` (Connection.js:133) rather than a copy. A
  GET leaves `params` and `paramsSerializer` there, and a later POST sends them next to its
  `data` whenever the TLS preflight passes or no agent is configured. So a request other than
  GET can carry query parameters. `Connections.GetThenPost`
  proves this.
- `requestFile` with GET does not remove a `data` entry already present in the options
  (Connection.js:200-202), unlike `request` (Connection.js:150).
- The header list is restored only on the dispatch path. A failing TLS preflight returns
  before `refreshHeader` (Connection.js:142, 196), so the headers stay as they were.

## Model

| member | source | states |
|---|---|---|
| `Headers.AddInstanceHeader` | src/node/connection/Connection.js:123-129 | folding one instance header adds its key and leaves every other key's value unchanged |
| `Headers.SeedHoldsLastCredential` | src/node/connection/Connection.js:120-122 | after seeding, each key holds the last credential value given for it, and keys no credential names are absent |
| `Headers.MergeMatchesExpected` | src/node/connection/Connection.js:118-131 | under every key, the merged header object agrees with the reference: the last credential value plus all instance values, joined by spaces for the user-agent key and otherwise the last one |
| `Headers.MergeKeys` | src/node/connection/Connection.js:118-131 | the merged object's keys are exactly the credential keys plus the instance keys: nothing is dropped, nothing is invented |
| `Headers.InstanceValueWins` | src/node/connection/Connection.js:123-129 | for any key other than the user-agent key, an instance header overrides the credentials and its last value wins |
| `Headers.CredentialKept` | src/node/connection/Connection.js:120-129 | a key no instance header names keeps its credential value |
| `Headers.UserAgentJoined` | src/node/connection/Connection.js:125-126 | a user-agent value from the credentials and one from the instance list merge to `cred + " " + instance` |
| `Headers.AppendedHeaderWins` | src/node/connection/Connection.js:127-128 | an ordinary header appended last to the list is the value the merged object carries |
| `Headers.TrackedUserAgentIsJoined` | src/node/connection/Connection.js:130 | after a merge over a non-empty list, `USER_AGENT` is all user-agent values seen, joined by spaces |
| `Agents.ClientCertAgent` | src/node/connection/Connection.js:35-42 | an agent exists exactly when certificate data exists; it is a client-certificate agent with no proxy, carrying the certificate and the passphrase |
| `Agents.TunnelOptions` | src/node/connection/Connection.js:56-65 | the proxy record has the given host and port; `proxyAuth` exists iff user name and password are both truthy and is then `user:password`; the certificate and passphrase are copied in only when certificate data exists |
| `Agents.ProxyAuthSplits` | src/node/connection/Connection.js:59-61 | when the user name has no colon, the proxy credential splits at its first colon back into user name and password |
| `Requests.Upper` | src/node/connection/Connection.js:134 | upper-casing keeps the length, maps each character to its upper-case form, and leaves no lower-case ASCII letter |
| `Requests.UpperIsGet` | src/node/connection/Connection.js:147 | the GET branch is taken exactly for the method names that spell "get" in any mix of cases |
| `Requests.DescriptorCore` | src/node/connection/Connection.js:133-136 | both flavours send the upper-cased method, the URL from `getUri` and exactly the merged headers, and keep the configured agent; these writes stand even when the preflight fails |
| `Requests.JsonGetUsesQuery` | src/node/connection/Connection.js:147-150 | `request` with GET sets `params` to the body, attaches the serializer and removes `data` |
| `Requests.JsonOtherUsesData` | src/node/connection/Connection.js:151-153 | `request` with another method sets `data` to the body and leaves `params` and the serializer as the shared options had them |
| `Requests.FileGetUsesQuery` | src/node/connection/Connection.js:200-202 | `requestFile` with GET sets `params` to the body and `responseType` to `arraybuffer`, and keeps any existing `data` |
| `Requests.FileOtherUsesData` | src/node/connection/Connection.js:203-205 | `requestFile` with another method only sets `data` to the body |
| `Requests.NoAgentNoPreflight` | src/node/connection/Connection.js:138-144 | without an `httpsAgent` option no preflight runs and both flavours dispatch |
| `Requests.PreflightFailureShapes` | src/node/connection/Connection.js:138-143 | a failing preflight stops both flavours before dispatch and before the header refresh, and `request` leaves the shared options holding the method, URL and headers with no body placed; `request` rejects with the raw error, `requestFile` with the error wrapped in `KintoneAPIException` (lines 192-197) |
| `Requests.DispatchShapes` | src/node/connection/Connection.js:155-160 | after a passing preflight, both flavours settle to the response payload on success; on error `request` rejects with it unwrapped and `requestFile` wraps it (lines 207-211) |
| `Requests.RejectionShapes` | src/node/connection/Connection.js:207-211 | every rejection of `requestFile` is a `KintoneAPIException`, and no rejection of `request` is |
| `Requests.UploadDescriptor` | src/node/connection/Connection.js:102-106 | the upload request is a POST whose data is the single part `file` with the given file name and content, and whose `Content-Type` header is the encoder's |
| `Connections.Connection.constructor` | src/node/connection/Connection.js:24-27 | a new connection starts from the base options and headers, with a client-certificate agent installed when certificate data exists |
| `Connections.Connection.AddHttpsAgent` | src/node/connection/Connection.js:43 | storing an agent replaces the `httpsAgent` option and changes nothing else |
| `Connections.Connection.SetHeader` | src/node/connection/Connection.js:105 | setting a header appends one entry to the header list |
| `Connections.Connection.RefreshHeader` | src/node/connection/Connection.js:159 | refreshing restores the base header list and counts one refresh |
| `Connections.Connection.SetClientCert` | src/node/connection/Connection.js:35-44 | a no-op without certificate data; otherwise the options gain the client-certificate agent and nothing else changes |
| `Connections.Connection.SetProxy` | src/node/connection/Connection.js:55-69 | replaces the agent with an HTTP tunnelling agent built from `TunnelOptions`, changes nothing else and returns the connection itself |
| `Connections.Connection.SetHttpsProxy` | src/node/connection/Connection.js:80-94 | replaces the agent with an HTTPS tunnelling agent built from `TunnelOptions`, changes nothing else and returns the connection itself |
| `Connections.Connection.MergeHeaders` | src/node/connection/Connection.js:118-131 | the two loops build exactly `Merge(credentials, headers)`; `USER_AGENT` ends as the merged user-agent entry, or unchanged when the header list is empty |
| `Connections.Connection.Request` | src/node/connection/Connection.js:116-161 | the new shared options, the reply, the header list and the refresh count are exactly those of `JsonCall`; the user-agent is tracked as in the merge |
| `Connections.Connection.RequestFile` | src/node/connection/Connection.js:169-214 | the options are left unchanged; the reply, header list and refresh count are those of `FileCall` on a copy of the options |
| `Connections.Connection.Upload` | src/node/connection/Connection.js:102-107 | the options are unchanged; the reply is that of `FileCall` for a POST of the one-part form to the file endpoint, with the content type appended to the header list |
| `Connections.ConfigureAgents` | src/node/connection/Connection.js:35-94 | client certificate, then HTTP proxy, then HTTPS proxy leaves only the HTTPS tunnelling agent active, carrying the certificate data when it exists |
| `Connections.GetThenPost` | src/node/connection/Connection.js:133-153 | because `request` shares its options, on any connection whose TLS preflight passes (or that has no agent) a POST after a GET carries the GET's query parameters and serializer next to its own data |
| `Connections.FileAfterRequest` | src/node/connection/Connection.js:187 | a `requestFile` after a `request` leaves the shared options exactly as `request` left them |

## Left out

- Dispatch through axios and the Promise machinery. The transport is a function from the
  options at dispatch time to `Ok(data)` or `Err(error)`. The promise's settled value is the
  `Reply`.
- The internals of `https.Agent`, `tunnel.httpsOverHttp` and `tunnel.httpsOverHttps`. An
  agent is only its constructor tag and its option record.
- `tls.createSecureContext`, a foreign TLS engine. It is an oracle on the agent's option
  record that either passes or raises an error.
- `FormData` multipart encoding and boundary generation. The form is its list of parts, and
  the encoder's content type is a parameter of `Upload`.
- The base connection, whose code is not part of this model. `getUri`, the value of the
  user-agent key and the initial options and headers are fixed at construction. Its other
  helpers get assumed contracts. `copyObject` is a value copy. `addRequestOption` replaces the
  one key it is given. `setHeader` appends an entry. `refreshHeader` restores the base header
  list. `serializeParams` is only recorded as attached (`paramsSerializer`), and the query
  encoding it performs is not modelled.
- The option key the agent setters store under is `CONNECTION_CONST.BASE.HTTPS_AGENT`, whose
  value is not part of this model. The model assumes it is `'httpsAgent'`, the key the
  preflight tests (Connection.js:138, 192), so both use the one `httpsAgent` field.
- `Headers.Merge` treats every header key as an ordinary map key. The source builds a plain
  JavaScript object (Connection.js:118). There, a `__proto__` key is silently dropped, and a
  `hasOwnProperty` key shadows the method, so the check at line 125 then throws. Neither is
  modelled.
- The authentication object is a fixed value. `createHeaderCredentials()` is called on every
  request in the code, but here it returns the same credential list each time.
- Connections.Connection.constructor: the initial `USER_AGENT` is `None` (undefined), because the
  base constructor's choice is not part of this model.
- Requests.Upper: only ASCII letters are upper-cased, unlike JavaScript's `toUpperCase`,
  which also maps other Unicode letters. `String(methodName)` on a non-string is not
  modelled: method names are strings.
- Option keys this code neither reads nor writes (base URL, timeouts and the like) are not
  fields of `Options`. Every update in the model changes only the keys it names.
- Bodies are strings or multipart forms. An `undefined` body is not modelled, and neither is
  the query or JSON encoding of a body.
- JavaScript truthiness is modelled for the proxy user name and password: a present,
  non-empty string is truthy. Certificate data is a buffer, which is truthy whenever it is
  present. Host and port are strings.
- Overlapping calls on one connection. Calls are sequential in the model, and the
  interleavings the host runtime allows are not represented.
