# Node registration against a Puppet CA Smart Proxy

This project models the registration controller of the Foreman registration
plugin, `Api::V2::RegistrationsController`
(app/controllers/api/v2/registrations_controller.rb), and proves properties
of the model. A node calls `register` with its name, certname, environment
and hostgroup:

- Before every action, the `before_filter` `check_smart_proxy_ca` selects the
  Smart Proxy that offers the `Puppet CA` feature.
- `validate_params` keeps only the four required parameters and raises unless
  all four are present.
- The action looks up the host by certname:
  - a known host is a redeployment: its certificate is revoked at the CA proxy
    with a `DELETE /puppet/ca/<certname>`, but only when the record's certname
    attribute is not nil;
  - an unknown certname leads to `create`, which builds and saves a new host
    record.
- The client receives the success envelope, unless the revocation failed or
  `create` raised. Then it receives the 500 error envelope.
- `rescue_from` turns every `ActiveModel::MissingAttributeError` and
  `RegistrationsControllerError` into the 500 error envelope and a log line.

The model has five modules:

- `Envelope`: the two rescued exception classes, the 200 and 500 response
  envelopes, and the log line format.
- `Params`: request parameters as an ordered hash with unique keys,
  `params.select`, the sorted-key check of `validate_params`, and the text of
  the MissingAttributeError (Ruby's `Hash#inspect`, as Ruby 1.9 and later
  write it).
- `SmartProxyCa`: the CA proxy query and its selection, the revocation path,
  and the classification of the proxy's HTTP status.
- `Registration`: the whole effect of one request as pure functions.
  `HandleRegister` returns the response, the host table afterwards, the
  DELETEs sent, the attributes handed to `create`, and the log lines. The
  lemmas state the properties of a request.
- `Controller`: the same behaviour as objects whose fields change.
  - `HostStore` is the `Host::Managed` table.
  - `RegistrationsController` holds the instance variables the filter sets
    (`@ca_api_path`, `@ca_proxies`, `@ca_proxy`) and what the request
    produced.
  - Each method is proved to leave exactly the state that the `Registration`
    functions describe.

The following are parameters of the model:

- the proxy registry, a sequence of proxies in database order;
- the outcome of `host.save`: saved, returned false, or raised;
- the CA proxy's answer: the status code and the `status` response header.

The model follows the code:

- Hosts are looked up by certname only.
- Validation checks only that the keys are present. An empty value is
  accepted, and so is a key given without a value, which arrives as nil.
- A nil certname is looked up as nil: it finds a record whose certname is
  nil, revokes nothing, and is logged as an empty string.
- Ruby treats `""` as true, so a record whose certname is the empty string
  still has its certificate revoked. Only nil skips the revocation.
- A `save` that returns false is reported as success.
- Every failure, including a missing parameter, is a 500 response.

## Model

| member | source | states |
|---|---|---|
| Envelope.RegisterSuccess | app/controllers/api/v2/registrations_controller.rb:54-58 | the success envelope has result true, message "Success!" and status 200 |
| Envelope.RegisterError | app/controllers/api/v2/registrations_controller.rb:60-65 | the error envelope has result false, the exception's message and status 500, and never equals the success envelope |
| Envelope.LogLine | app/controllers/api/v2/registrations_controller.rb:49-52 | a log line is the "[RegistrationsController] " tag followed by the message, and nothing else |
| Envelope.ErrorLogIdentifiesError | app/controllers/api/v2/registrations_controller.rb:63 | the line "Exception <class>: <message>" logged for a rescued exception determines the exception: two exceptions that log the same line have the same class and message |
| Params.Lookup | app/controllers/api/v2/registrations_controller.rb:23 | `params[key]` for a present key returns a value that the hash holds under that key |
| Params.LookupUnique | app/controllers/api/v2/registrations_controller.rb:23 | in a hash, a key determines its value: any entry under the key is what the lookup returns |
| Params.Select | app/controllers/api/v2/registrations_controller.rb:70-71 | the filtered hash holds exactly the request's entries whose key is one of the four required keys, and its keys stay unique |
| Params.SelectIdempotent | app/controllers/api/v2/registrations_controller.rb:71 | filtering an already filtered hash changes nothing |
| Params.Inspect | app/controllers/api/v2/registrations_controller.rb:73 | the interpolated hash is written between braces |
| Params.ReadQuotedEscape | app/controllers/api/v2/registrations_controller.rb:73 | a string escaped as `inspect` escapes it (`"`, `\`, and `#` before `{`, `$` or `@`) reads back, up to its closing quote, as the original string |
| Params.ReadValueInspect | app/controllers/api/v2/registrations_controller.rb:73 | a value written as `nil` or as a quoted string reads back as that value |
| Params.ReadEntryInspect | app/controllers/api/v2/registrations_controller.rb:73 | an entry written as `"key"=>value` reads back as that entry, leaving what follows it |
| Params.ReadEntriesInspect | app/controllers/api/v2/registrations_controller.rb:73 | the entries of a non-empty hash, written with `, ` between them and a closing brace, read back as those entries in order |
| Params.InspectRoundTrip | app/controllers/api/v2/registrations_controller.rb:73 | the text of the interpolated hash parses back to the hash: nothing is lost when the filtered hash is written into the message |
| Params.InspectInjective | app/controllers/api/v2/registrations_controller.rb:73 | two hashes that are written the same are the same hash |
| Params.MissingParameter | app/controllers/api/v2/registrations_controller.rb:73 | the validation error is a MissingAttributeError whose message is "You did not specify a required parameter: " followed by the rendered filtered hash |
| Params.MissingParameterNamesHash | app/controllers/api/v2/registrations_controller.rb:73 | the hash can be read back out of the message: it is exactly the filtered hash |
| Params.ValidateParams | app/controllers/api/v2/registrations_controller.rb:69-76 | validation succeeds if and only if all four required keys are present; on success it returns the filtered hash, and on failure the MissingAttributeError built from it |
| Params.SortedKeysMatchIff | app/controllers/api/v2/registrations_controller.rb:72 | the sorted filtered keys equal the sorted required keys (the same multiset) if and only if every required key is present |
| Params.AllPresentSortsEqual | app/controllers/api/v2/registrations_controller.rb:72 | when every required key is present, the filtered keys are the required keys, each exactly once |
| Params.SortsEqualAllPresent | app/controllers/api/v2/registrations_controller.rb:72 | when the sorted filtered keys equal the required ones, every required key is present in the request |
| Params.RequiredDistinct | app/controllers/api/v2/registrations_controller.rb:70 | the four required keys are pairwise distinct |
| Params.ValidatedHoldsExactlyRequired | app/controllers/api/v2/registrations_controller.rb:69-76 | a validated hash has exactly four entries, its keys are exactly the required ones, and each value is the one the request gave |
| Params.ValidationIgnoresValues | app/controllers/api/v2/registrations_controller.rb:71-72 | two requests with the same keys get the same verdict, whatever the values (empty strings and nil included), and succeed with the same keys |
| Params.ValidateParamsIdempotent | app/controllers/api/v2/registrations_controller.rb:69-76 | validating a validated hash succeeds and returns it unchanged |
| SmartProxyCa.CaProxies | app/controllers/api/v2/registrations_controller.rb:40-41 | the proxy query returns no more proxies than are registered (its members and order are stated by the lemmas below) |
| SmartProxyCa.CaProxiesMembers | app/controllers/api/v2/registrations_controller.rb:40-41 | the proxy query returns exactly the registered proxies that offer the `Puppet CA` feature |
| SmartProxyCa.CaProxiesStartWithFirstCa | app/controllers/api/v2/registrations_controller.rb:40-42 | the first proxy of the query is the earliest registered proxy with the CA feature |
| SmartProxyCa.TwoCaProxiesFound | app/controllers/api/v2/registrations_controller.rb:40-41 | every registered CA proxy is listed: two registered proxies offering the feature make the query find more than one |
| SmartProxyCa.SeveralCaProxiesRegistered | app/controllers/api/v2/registrations_controller.rb:40-41 | the query lists nothing twice and nothing unregistered: finding more than one means two registry positions offer the feature |
| SmartProxyCa.CaNotConfigured | app/controllers/api/v2/registrations_controller.rb:44 | the missing-proxy error is a RegistrationsControllerError whose message asks the operator to configure a `Puppet CA` Smart Proxy |
| SmartProxyCa.SelectCaProxy | app/controllers/api/v2/registrations_controller.rb:42-45 | selection succeeds if and only if the query found a proxy, and then returns one of the proxies found; otherwise it raises the missing-proxy error |
| SmartProxyCa.SelectCaProxyFromRegistry | app/controllers/api/v2/registrations_controller.rb:40-45 | with at least one CA proxy registered, the selected proxy is the earliest registered one |
| SmartProxyCa.SelectCaProxyNoneRegistered | app/controllers/api/v2/registrations_controller.rb:40-45 | with no CA proxy registered, selection raises the missing-proxy error |
| SmartProxyCa.CaWarnings | app/controllers/api/v2/registrations_controller.rb:46 | the "More than one `Puppet CA` defined!" line is logged, once, exactly when the query found more than one proxy |
| SmartProxyCa.WarnsIffTwoCaProxies | app/controllers/api/v2/registrations_controller.rb:40-46 | the multiple-CA warning is logged exactly when two registered proxies offer the `Puppet CA` feature |
| SmartProxyCa.JoinPath | app/controllers/api/v2/registrations_controller.rb:98 | `[base, name].join('/')` is the base, one slash and the name |
| SmartProxyCa.RevokePath | app/controllers/api/v2/registrations_controller.rb:98 | the certname can be read back out of the revocation path `/puppet/ca/<certname>` |
| SmartProxyCa.RevokePathInjective | app/controllers/api/v2/registrations_controller.rb:98 | distinct certnames are revoked at distinct paths |
| SmartProxyCa.RevokeFailed | app/controllers/api/v2/registrations_controller.rb:108-109 | a failed revocation raises a RegistrationsControllerError |
| SmartProxyCa.RevokeFailedNamesStatusAndCertname | app/controllers/api/v2/registrations_controller.rb:108-109 | the revocation error message contains the proxy's status header (empty when nil) and the certname, at the positions the message format gives them |
| SmartProxyCa.ClassifyRevoke | app/controllers/api/v2/registrations_controller.rb:102-110 | a revocation succeeds if and only if the status is 200 or 404; any other status raises the revocation error for that certname |
| SmartProxyCa.RevokeCert | app/controllers/api/v2/registrations_controller.rb:90-114 | without a proxy, no request is sent and the missing-proxy error is raised; with one, exactly one DELETE goes to its URL at `/puppet/ca/<certname>`; the call succeeds if and only if a proxy is set and the status is 200 or 404, and any other status raises the revocation error naming the status header and the certname |
| SmartProxyCa.RevokeIdempotent | app/controllers/api/v2/registrations_controller.rb:102-106 | a 404 answer leads to the same requests and outcome as a 200 answer |
| Registration.HostFrom | app/controllers/api/v2/registrations_controller.rb:81 | the record built from the validated attributes carries the request's name and certname, nil included |
| Registration.CreateFailed | app/controllers/api/v2/registrations_controller.rb:85 | an exception while building or saving becomes a RegistrationsControllerError reading "Could not create record. [<cause>]" |
| Registration.SuccessMessage | app/controllers/api/v2/registrations_controller.rb:30 | the logged message opens with "Node: " and the node's name and closes with the certname and " registered successfully", a nil value printing as nothing |
| Registration.SuccessLog | app/controllers/api/v2/registrations_controller.rb:30 | the success line is the tagged message and never equals the line logged for a rescued exception |
| Registration.RevokeBranch | app/controllers/api/v2/registrations_controller.rb:25-30 | the redeployment branch: revoke the requested certname at the selected proxy, then the success envelope and line, or the rescued revocation error; `Registration.RegisterValidatedBranches` states its effect |
| Registration.CreateBranch | app/controllers/api/v2/registrations_controller.rb:27-30 | the new-node branch: `create` the validated record, then the success envelope and line, or the rescued create error; `Registration.RegisterValidatedBranches` states its effect |
| Registration.RegisterValidated | app/controllers/api/v2/registrations_controller.rb:23-30 | the branch on `find_by_certname` and the record's certname; `Registration.RegisterValidatedBranches` and `Registration.ExactlyOneBranch` state its effect |
| Registration.RegisterValidatedBranches | app/controllers/api/v2/registrations_controller.rb:23-30 | for a known certname, nothing is created, the table is unchanged, and one DELETE is sent exactly when the record's certname is not nil; a failed revocation is answered with the revocation error for the proxy's status header and the certname; for an unknown certname, nothing is revoked, `create` runs once, and the table gains the record only when `save` succeeds; the response is 200 with "Success!", logged with the success line, or 500 |
| Registration.RegisterAction | app/controllers/api/v2/registrations_controller.rb:21-31 | a request missing a required key gets the MissingAttributeError envelope and changes nothing; otherwise the action runs lines 23-30 on the filtered hash |
| Registration.HandleRegister | app/controllers/api/v2/registrations_controller.rb:13-47 | with no CA proxy the request gets the missing-proxy envelope and changes nothing; otherwise it does what the action does with the first CA proxy, after the multiple-proxy warning when there is one |
| Registration.SelectKeepsCertname | app/controllers/api/v2/registrations_controller.rb:22-23 | the validated hash still has every required key and the request's certname |
| Registration.ReachesRegisterValidated | app/controllers/api/v2/registrations_controller.rb:13-31 | a valid request with a CA proxy reaches lines 23-30 with the first CA proxy and its own certname |
| Registration.NoCaProxyRejectsEveryRequest | app/controllers/api/v2/registrations_controller.rb:13-45 | with no CA proxy registered, every request is answered 500 with the configuration message, and the table, the CA and `create` are untouched |
| Registration.SeveralCaProxiesWarnAndUseFirst | app/controllers/api/v2/registrations_controller.rb:40-46 | with two registered CA proxies, the warning is the first line logged and every DELETE goes to the earliest registered CA proxy |
| Registration.ActionSendsOnlyToProxy | app/controllers/api/v2/registrations_controller.rb:90-98 | every DELETE the action sends goes to the selected proxy |
| Registration.ActionKeepsExistingHosts | app/controllers/api/v2/registrations_controller.rb:23-28 | the action keeps every existing record unchanged and adds at most one |
| Registration.MissingKeyRejected | app/controllers/api/v2/registrations_controller.rb:21-31 | a request missing a required key is answered 500 with the MissingAttributeError message, before any lookup, write or CA call |
| Registration.ExistingHostIsRevokedNotCreated | app/controllers/api/v2/registrations_controller.rb:23-25 | for a known certname, nothing is created and the table is unchanged; the certificate is revoked once, at the selected proxy, exactly when the record's certname is not nil, which in a consistent table is exactly when the request names a certname; the request succeeds exactly when no revocation was needed or the proxy answered 200 or 404, and otherwise fails with the revocation error for the status header and the certname |
| Registration.NewHostIsCreatedNotRevoked | app/controllers/api/v2/registrations_controller.rb:26-29 | for an unknown certname, `create` runs once with the validated attributes and no CA call is made; the table gains the record only when `save` succeeds; a `save` returning false is still a success; an exception is answered as "Could not create record. [<cause>]" |
| Registration.ExactlyOneBranch | app/controllers/api/v2/registrations_controller.rb:24-28 | a valid request attempts a create exactly when the certname is unknown, and never both creates and revokes |
| Registration.RegisterKeepsExistingHosts | app/controllers/api/v2/registrations_controller.rb:13-31 | a request never removes or changes an existing record, and adds at most one |
| Registration.ActionRevocationIdempotent | app/controllers/api/v2/registrations_controller.rb:102-106 | the action ends the same way whether the proxy answers 200 or 404 |
| Registration.RegisterRevocationIdempotent | app/controllers/api/v2/registrations_controller.rb:102-106 | a whole request ends the same way whether the proxy answers 200 or 404, so a revocation can be repeated |
| Registration.RegisterTwiceRevokesOnRedeploy | app/controllers/api/v2/registrations_controller.rb:19-28 | registering a new node creates its record; registering it again creates nothing, leaves the table as it is, and, when the request names a certname, revokes that certificate at the selected proxy |
| Registration.RegisterKeepsConsistent | app/controllers/api/v2/registrations_controller.rb:23-28 | a request keeps every record stored under its own certname, so `find_by_certname` keeps finding records whose certname is the one looked up |
| Controller.HostStore.constructor | app/controllers/api/v2/registrations_controller.rb:23 | the table starts with the given records |
| Controller.HostStore.FindByCertname | app/controllers/api/v2/registrations_controller.rb:23 | the lookup finds a record if and only if the certname is in the table, and returns that record |
| Controller.HostStore.Save | app/controllers/api/v2/registrations_controller.rb:81-82 | the record is stored under its certname only when `save` succeeds; `save` returning false leaves the table as it was; an exception is passed on with its class and message |
| Controller.RegistrationsController.constructor | app/controllers/api/v2/registrations_controller.rb:7 | a new controller has no proxy, no response, no requests, no created records and no log |
| Controller.RegistrationsController.Log | app/controllers/api/v2/registrations_controller.rb:50-52 | `log` appends one tagged line to the log |
| Controller.RegistrationsController.CheckSmartProxyCa | app/controllers/api/v2/registrations_controller.rb:38-47 | sets the API path to "/puppet/ca", sets the CA proxies to the query result and the proxy to the first of them; raises the missing-proxy error when there is none; otherwise logs the warning only when there are several |
| Controller.RegistrationsController.RenderSuccess | app/controllers/api/v2/registrations_controller.rb:55-58 | renders the success envelope |
| Controller.RegistrationsController.RescueError | app/controllers/api/v2/registrations_controller.rb:61-65 | logs "Exception <class>: <message>" and renders the 500 envelope for the exception |
| Controller.RegistrationsController.Create | app/controllers/api/v2/registrations_controller.rb:79-87 | records the attempt; stores the record only when `save` succeeds; an exception is logged and re-raised as "Could not create record. [<cause>]" |
| Controller.RegistrationsController.RevokeCert | app/controllers/api/v2/registrations_controller.rb:90-114 | sends exactly the requests `SmartProxyCa.RevokeCert` describes for the controller's proxy and API path, and raises what it raises |
| Controller.RegistrationsController.Register | app/controllers/api/v2/registrations_controller.rb:14-31 | the action under `rescue_from` leaves exactly the response, table, requests, created records and log that `Registration.RegisterAction` gives, and keeps the filter's path and proxies |
| Controller.RegistrationsController.RegisterValid | app/controllers/api/v2/registrations_controller.rb:23-30 | lines 23-30 leave exactly the state `Registration.RegisterValidated` gives |
| Controller.RegistrationsController.RevokeExisting | app/controllers/api/v2/registrations_controller.rb:25-30 | the redeployment branch leaves exactly the state `Registration.RevokeBranch` gives |
| Controller.RegistrationsController.CreateNew | app/controllers/api/v2/registrations_controller.rb:27-30 | the new-node branch leaves exactly the state `Registration.CreateBranch` gives |
| Controller.RegistrationsController.Process | app/controllers/api/v2/registrations_controller.rb:13-47 | one request (filter, action, rescue) leaves exactly the response, table, requests, created records and log that `Registration.HandleRegister` gives; afterwards the API path is "/puppet/ca", the CA proxies are the query result and the proxy is the first of them |
| Controller.RegistrationsController.RejectWithoutCa | app/controllers/api/v2/registrations_controller.rb:13-15 | when the filter raised, the request leaves exactly the error response and log `Registration.HandleRegister` gives |
| Controller.RegistrationsController.RegisterWithCa | app/controllers/api/v2/registrations_controller.rb:13-31 | when the filter passed, the action leaves exactly the state `Registration.HandleRegister` gives, after the filter's warning |

## Left out

- The Faraday connection, its SSL settings and the network DELETE itself (lines 92-100) are not modelled. The proxy's answer is a parameter: its status code and its `status` header. A request is recorded as the proxy URL and the path. The model assumes every DELETE receives a status code. An exception raised by `conn.delete` (connection refused, timeout, TLS failure) is neither of the two classes rescued at lines 14-15, so it would reach no `register_error`: no 500 envelope is rendered and no "Exception …" line is logged. That path is not modelled.
- Faraday's joining of the proxy URL with the request path is not modelled. The request keeps the two apart.
- The proxy query's database order is taken to be the order of the registry sequence.
- `Host::Managed.find_by_certname` is a map lookup keyed by the certname, nil included. `Registration.Consistent` says each record is stored under its own certname; with it, the nil branch of line 25 is taken exactly when the request's certname is nil. Lemmas that do not need it hold for any table.
- `Host::Managed.new` and `save` are not modelled beyond three outcomes: saved, returned false, or raised. Validation, callbacks and database constraints are not modelled.
- `Host::Managed.new` may raise as well as `save`. Both are modelled as one raising outcome, because `create` rescues them together.
- Params.Inspect: `Hash#inspect` is modelled for string keys and for values that are strings or nil. It escapes `"`, `\`, and `#` before `{`, `$` or `@`. Control characters and other non-printable characters are written as they are, where Ruby escapes them (`\n`, `\u0001`, `\u200B`). Printable non-ASCII characters are written as they are, as Ruby does under Rails' UTF-8 default encoding. The model assumes Ruby 1.9 or later, where interpolating a hash writes its `inspect`; Ruby 1.8's `Hash#to_s` joins keys and values with no braces or quotes.
- Parameter values are strings or nil. Rack also builds arrays and nested hashes from `key[]=` and `key[sub]=` query keys; those values are not modelled.
- JSON serialisation of the envelope, and the log level, are not modelled. A response is its `result`, `message` and status; the log is the sequence of lines.
- lib/foreman_registration.rb (`ForeignApiClient`) is not part of this model. It is network plumbing with no decisions of its own.
- lib/foreman_registration/engine.rb is not part of this model. It registers the plugin, its permissions and its roles.
- app/models/settings/foreman_registration.rb is not part of this model. It holds settings defaults; the IP allow-list it declares is never checked by the controller.
- config/routes.rb is not part of this model. It only declares routing.
- Authentication and the API base controller (`V2::BaseController`) are not part of this model.
- Concurrency between requests is not modelled. Each request runs alone against the table it meets.
