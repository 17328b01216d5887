/**
 * What one request to `register` does, end to end, as a function of the
 * state it meets: the `before_filter` (`check_smart_proxy_ca`), the action
 * (`register`, `create`, `revoke_cert`) and the `rescue_from` handlers that
 * turn its exceptions into the error envelope
 * (app/controllers/api/v2/registrations_controller.rb, lines 13-31, 78-87).
 *
 * The host table is a map from the certname `find_by_certname` looks up
 * (nil included: a request may carry `certname` without a value) to the
 * record it finds. The outcome of `host.save` and the CA proxy's answer are
 * parameters.
 */
module Registration {
  import opened Wrappers
  import opened Envelope
  import opened Params
  import opened SmartProxyCa

  /** A `Host::Managed` record as far as registration reads or writes it. */
  datatype Host = Host(name: Option<string>, certname: Option<string>,
                       environmentId: Option<string>, hostgroupId: Option<string>)

  /** The host table, keyed by the certname a record is found under. */
  type Hosts = map<Option<string>, Host>

  /** `find_by_certname(c)` finds a record whose `certname` attribute is `c`. */
  predicate Consistent(hosts: Hosts)
  {
    forall c :: c in hosts ==> hosts[c].certname == c
  }

  /** How `Host::Managed.new(attrs)` followed by `host.save` ends: saved, `save` returned false, or raised. */
  datatype SaveOutcome = Saved | NotSaved | Raised(errorClass: string, errorMessage: string)

  /** Everything one request leaves behind. */
  datatype Effects = Effects(
    response: Response,             // what `render` produced
    hosts: Hosts,                   // the host table afterwards
    caRequests: seq<CaRequest>,     // DELETEs sent to the CA proxy
    created: seq<Params>,           // attributes handed to `create`
    log: seq<string>)               // lines written to the Rails log

  const CREATE_ERROR_HEAD: string := "Could not create record. ["

  /** The record `Host::Managed.new(attrs)` builds from the validated attributes. */
  function HostFrom(attrs: Params): (h: Host)
    requires HasRequiredKeys(attrs)
    ensures h.certname == Lookup(attrs, "certname")
    ensures h.name == Lookup(attrs, "name")
  {
    Host(Lookup(attrs, "name"), Lookup(attrs, "certname"),
         Lookup(attrs, "environment_id"), Lookup(attrs, "hostgroup_id"))
  }

  /** The error `create` raises when building or saving the record raised `cause`. */
  function CreateFailed(cause: string): (err: Error)
    ensures err.RegistrationsControllerError?
    ensures |err.message| == |CREATE_ERROR_HEAD| + |cause| + 1
    ensures err.message[..|CREATE_ERROR_HEAD|] == CREATE_ERROR_HEAD
    ensures err.message[|CREATE_ERROR_HEAD|..|CREATE_ERROR_HEAD| + |cause|] == cause
  {
    RegistrationsControllerError(CREATE_ERROR_HEAD + cause + "]")
  }

  const SUCCESS_HEAD: string := "Node: "
  const SUCCESS_TAIL: string := " registered successfully"

  /**
   * The message logged after a successful registration: it opens with the
   * node's name and closes with its certname; a nil name or certname prints
   * as nothing.
   */
  function SuccessMessage(validated: Params): (msg: string)
    requires HasRequiredKeys(validated)
    ensures var name := Interpolate(Lookup(validated, "name"));
            |SUCCESS_HEAD| + |name| <= |msg| && msg[..|SUCCESS_HEAD| + |name|] == SUCCESS_HEAD + name
    ensures var tail := Interpolate(Lookup(validated, "certname")) + SUCCESS_TAIL;
            |tail| <= |msg| && msg[|msg| - |tail|..] == tail
  {
    SUCCESS_HEAD + Interpolate(Lookup(validated, "name")) + " | " + Interpolate(Lookup(validated, "certname"))
      + SUCCESS_TAIL
  }

  /** The success line can never be mistaken for the line of a rescued exception. */
  function SuccessLog(validated: Params): (line: string)
    requires HasRequiredKeys(validated)
    ensures forall err: Error :: line != ErrorLog(err)
  {
    var line := LogLine(SuccessMessage(validated));
    assert line[|LOG_PREFIX|] == 'N';
    line
  }

  /**
   * Line 25 for a host whose certname is set: revoke the certificate of the
   * requested certname (a nil one joins into the path as nothing), then report.
   */
  function RevokeBranch(hosts: Hosts, proxy: SmartProxy, validated: Params,
                        ca: CaResponse): Effects
    requires HasRequiredKeys(validated)
  {
    var revocation := RevokeCert(Some(proxy), CA_API_PATH, Interpolate(Lookup(validated, "certname")), ca);
    match revocation.outcome
    case Pass =>
      Effects(RegisterSuccess(), hosts, revocation.requests, [], [SuccessLog(validated)])
    case Fail(err) =>
      Effects(RegisterError(err), hosts, revocation.requests, [], [ErrorLog(err)])
  }

  /** Line 27: `create` the record, then report; what `create` raises is rescued. */
  function CreateBranch(hosts: Hosts, validated: Params, save: SaveOutcome): Effects
    requires HasRequiredKeys(validated)
  {
    match save
    case Saved =>
      Effects(RegisterSuccess(), hosts[Lookup(validated, "certname") := HostFrom(validated)], [], [validated],
              [SuccessLog(validated)])
    case NotSaved =>
      Effects(RegisterSuccess(), hosts, [], [validated], [SuccessLog(validated)])
    case Raised(errorClass, errorMessage) =>
      var err := CreateFailed(errorMessage);
      Effects(RegisterError(err), hosts, [], [validated],
              [LogLine(ExceptionMessage(errorClass, errorMessage)), ErrorLog(err)])
  }

  /**
   * Lines 23-30 of `register`, once the parameters are validated and a CA
   * proxy is selected, with `rescue_from` applied to what they raise.
   */
  function RegisterValidated(hosts: Hosts, proxy: SmartProxy, validated: Params,
                             ca: CaResponse, save: SaveOutcome): Effects
    requires HasRequiredKeys(validated)
  {
    var certname := Lookup(validated, "certname");
    if certname in hosts then
      if hosts[certname].certname.Some? then RevokeBranch(hosts, proxy, validated, ca)
      else Effects(RegisterSuccess(), hosts, [], [], [SuccessLog(validated)])
    else
      CreateBranch(hosts, validated, save)
  }

  /**
   * What the two branches of `register` do: a host found under the certname
   * is revoked (when its certname attribute is set) and nothing is created;
   * otherwise `create` runs and nothing is revoked. Only 200 is ever
   * rendered as success, only 500 as failure.
   */
  lemma RegisterValidatedBranches(hosts: Hosts, proxy: SmartProxy, validated: Params,
                                  ca: CaResponse, save: SaveOutcome)
    requires HasRequiredKeys(validated)
    ensures var e := RegisterValidated(hosts, proxy, validated, ca, save);
      var certname := Lookup(validated, "certname");
      && (e.response.result <==> e.response.status == 200)
      && (e.response.status == 200 || e.response.status == 500)
      && (e.response.result ==> e.response == RegisterSuccess() && e.log == [SuccessLog(validated)])
      && (certname in hosts ==>
        && e.created == [] && e.hosts == hosts
        && e.caRequests == (if hosts[certname].certname.Some?
                            then [Delete(proxy.url, RevokePath(Interpolate(certname)))] else [])
        && (e.response.result <==> hosts[certname].certname.None? || ca.code == 200 || ca.code == 404)
        && (!e.response.result ==>
              e.response == RegisterError(RevokeFailed(ca.statusHeader, Interpolate(certname)))))
      && (certname !in hosts ==>
        && e.caRequests == [] && e.created == [validated]
        && e.hosts == (if save.Saved? then hosts[certname := HostFrom(validated)] else hosts)
        && e.response == (if save.Raised? then RegisterError(CreateFailed(save.errorMessage)) else RegisterSuccess()))
  {
  }

  /** The `register` action with a CA proxy selected: validation first, then lines 23-30. */
  function RegisterAction(hosts: Hosts, proxy: SmartProxy, params: Params,
                          ca: CaResponse, save: SaveOutcome): (e: Effects)
    ensures !HasRequiredKeys(params) ==>
      e == Effects(RegisterError(MissingParameter(Select(params))), hosts, [], [],
                   [ErrorLog(MissingParameter(Select(params)))])
    ensures HasRequiredKeys(params) ==> e == RegisterValidated(hosts, proxy, Select(params), ca, save)
  {
    match ValidateParams(params)
    case Failure(err) => Effects(RegisterError(err), hosts, [], [], [ErrorLog(err)])
    case Success(validated) => RegisterValidated(hosts, proxy, validated, ca, save)
  }

  /** One request to `register`, from the `before_filter` to the rendered response. */
  function HandleRegister(hosts: Hosts, registry: seq<SmartProxy>, params: Params,
                          ca: CaResponse, save: SaveOutcome): (e: Effects)
    ensures CaProxies(registry) == [] ==>
      e == Effects(RegisterError(CaNotConfigured()), hosts, [], [], [ErrorLog(CaNotConfigured())])
    ensures CaProxies(registry) != [] ==>
      var a := RegisterAction(hosts, CaProxies(registry)[0], params, ca, save);
      && e.response == a.response && e.hosts == a.hosts
      && e.caRequests == a.caRequests && e.created == a.created
      && e.log == CaWarnings(CaProxies(registry)) + a.log
  {
    var proxies := CaProxies(registry);
    match SelectCaProxy(proxies)
    case Failure(err) =>
      Effects(RegisterError(err), hosts, [], [], [ErrorLog(err)])
    case Success(proxy) =>
      var a := RegisterAction(hosts, proxy, params, ca, save);
      Effects(a.response, a.hosts, a.caRequests, a.created, CaWarnings(proxies) + a.log)
  }

  /** The validated hash keeps the request's certname. */
  lemma SelectKeepsCertname(params: Params)
    requires HasRequiredKeys(params)
    ensures HasRequiredKeys(Select(params))
    ensures Lookup(Select(params), "certname") == Lookup(params, "certname")
  {
    var v := Select(params);
    assert "certname" in REQUIRED;
    LookupUnique(params, "certname", Lookup(v, "certname"));
  }

  /** A valid request with a CA proxy reaches lines 23-30 of `register` with its own certname. */
  lemma ReachesRegisterValidated(hosts: Hosts, registry: seq<SmartProxy>,
                                 params: Params, ca: CaResponse, save: SaveOutcome)
    requires CaProxies(registry) != []
    requires HasRequiredKeys(params)
    ensures HasRequiredKeys(Select(params))
    ensures Lookup(Select(params), "certname") == Lookup(params, "certname")
    ensures var e := HandleRegister(hosts, registry, params, ca, save);
      var b := RegisterValidated(hosts, CaProxies(registry)[0], Select(params), ca, save);
      && e.response == b.response && e.hosts == b.hosts
      && e.caRequests == b.caRequests && e.created == b.created
      && e.log == CaWarnings(CaProxies(registry)) + b.log
  {
    SelectKeepsCertname(params);
  }

  /**
   * Without a CA-capable proxy every request fails with 500 and the
   * configuration message, before any validation, lookup, write or CA call.
   */
  lemma NoCaProxyRejectsEveryRequest(hosts: Hosts, registry: seq<SmartProxy>,
                                     params: Params, ca: CaResponse, save: SaveOutcome)
    requires forall j :: 0 <= j < |registry| ==> !HasCaFeature(registry[j])
    ensures var e := HandleRegister(hosts, registry, params, ca, save);
      && e.response == Response(false, CA_MISSING_MESSAGE, 500)
      && e.hosts == hosts && e.caRequests == [] && e.created == []
  {
    SelectCaProxyNoneRegistered(registry);
  }

  /**
   * With several CA proxies the earliest registered one receives the
   * revocation, and the warning is the first line logged.
   */
  lemma SeveralCaProxiesWarnAndUseFirst(hosts: Hosts, registry: seq<SmartProxy>,
                                        params: Params, ca: CaResponse, save: SaveOutcome, i: nat, k: nat)
    requires i < k < |registry| && HasCaFeature(registry[i]) && HasCaFeature(registry[k])
    requires forall j :: 0 <= j < i ==> !HasCaFeature(registry[j])
    ensures var e := HandleRegister(hosts, registry, params, ca, save);
      && |e.log| >= 1 && e.log[0] == LogLine(MULTIPLE_CA_MESSAGE)
      && forall r :: r in e.caRequests ==> r.url == registry[i].url
  {
    CaProxiesStartWithFirstCa(registry, i);
    TwoCaProxiesFound(registry, i, k);
    var proxy := CaProxies(registry)[0];
    var a := RegisterAction(hosts, proxy, params, ca, save);
    ActionSendsOnlyToProxy(hosts, proxy, params, ca, save);
    assert CaWarnings(CaProxies(registry)) == [LogLine(MULTIPLE_CA_MESSAGE)];
    assert HandleRegister(hosts, registry, params, ca, save).log
        == [LogLine(MULTIPLE_CA_MESSAGE)] + a.log;
  }

  /** The action sends its DELETE, if any, to the proxy it was given. */
  lemma ActionSendsOnlyToProxy(hosts: Hosts, proxy: SmartProxy, params: Params,
                               ca: CaResponse, save: SaveOutcome)
    ensures forall r :: r in RegisterAction(hosts, proxy, params, ca, save).caRequests ==> r.url == proxy.url
  {
    if HasRequiredKeys(params) {
      SelectKeepsCertname(params);
      ValidatedRequestsGoToProxy(hosts, proxy, Select(params), ca, save);
    }
  }

  lemma ValidatedRequestsGoToProxy(hosts: Hosts, proxy: SmartProxy, validated: Params,
                                   ca: CaResponse, save: SaveOutcome)
    requires HasRequiredKeys(validated)
    ensures forall r :: r in RegisterValidated(hosts, proxy, validated, ca, save).caRequests ==> r.url == proxy.url
  {
  }

  /** The table after lines 23-30: the new record is added exactly when `create` ran and `save` succeeded. */
  lemma ValidatedHosts(hosts: Hosts, proxy: SmartProxy, validated: Params, ca: CaResponse, save: SaveOutcome)
    requires HasRequiredKeys(validated)
    ensures var c := Lookup(validated, "certname");
      RegisterValidated(hosts, proxy, validated, ca, save).hosts
        == if c !in hosts && save.Saved? then hosts[c := HostFrom(validated)] else hosts
  {
  }

  /** The action at most adds one record, and leaves every existing one as it was. */
  lemma ActionKeepsExistingHosts(hosts: Hosts, proxy: SmartProxy, params: Params,
                                 ca: CaResponse, save: SaveOutcome)
    ensures var e := RegisterAction(hosts, proxy, params, ca, save);
      && hosts.Keys <= e.hosts.Keys
      && (forall k :: k in hosts ==> e.hosts[k] == hosts[k])
      && |e.hosts.Keys - hosts.Keys| <= 1
  {
    if HasRequiredKeys(params) {
      var v := Select(params);
      SelectKeepsCertname(params);
      var certname := Lookup(v, "certname");
      ValidatedHosts(hosts, proxy, v, ca, save);
      if certname !in hosts && save.Saved? {
        KeepsUnderInsert(hosts, certname, HostFrom(v));
      }
    }
  }

  lemma KeepsUnderInsert(hosts: Hosts, key: Option<string>, host: Host)
    requires key !in hosts
    ensures var after := hosts[key := host];
      && hosts.Keys <= after.Keys
      && (forall k :: k in hosts ==> after[k] == hosts[k])
      && after.Keys - hosts.Keys == {key}
  {
  }

  /**
   * A request missing a required key fails with 500 and the
   * MissingAttributeError message, before any lookup, write or CA call.
   */
  lemma MissingKeyRejected(hosts: Hosts, registry: seq<SmartProxy>,
                           params: Params, ca: CaResponse, save: SaveOutcome)
    requires CaProxies(registry) != []
    requires !HasRequiredKeys(params)
    ensures var e := HandleRegister(hosts, registry, params, ca, save);
      && e.response == Response(false, MissingParameter(Select(params)).message, 500)
      && e.hosts == hosts && e.caRequests == [] && e.created == []
  {
  }

  /**
   * A host already known under the certname: nothing is created and the
   * table is unchanged; the certificate is revoked, once, at the selected
   * proxy, exactly when the record's certname attribute is not nil, which in
   * a consistent table means exactly when the request named a certname. A
   * proxy answering anything but 200 or 404 makes the request fail with its
   * status header and the certname.
   */
  lemma ExistingHostIsRevokedNotCreated(hosts: Hosts, registry: seq<SmartProxy>,
                                        params: Params, ca: CaResponse, save: SaveOutcome)
    requires CaProxies(registry) != []
    requires HasRequiredKeys(params)
    requires Lookup(params, "certname") in hosts
    ensures var e := HandleRegister(hosts, registry, params, ca, save);
      var certname := Lookup(params, "certname");
      && e.created == [] && e.hosts == hosts
      && e.caRequests == (if hosts[certname].certname.Some?
                          then [Delete(CaProxies(registry)[0].url, RevokePath(Interpolate(certname)))]
                          else [])
      && (e.response.result <==> hosts[certname].certname.None? || ca.code == 200 || ca.code == 404)
      && (hosts[certname].certname.Some? && ca.code != 200 && ca.code != 404 ==>
            e.response == RegisterError(RevokeFailed(ca.statusHeader, Interpolate(certname))))
      && (Consistent(hosts) ==> (e.caRequests != [] <==> certname.Some?))
  {
    ReachesRegisterValidated(hosts, registry, params, ca, save);
    RegisterValidatedBranches(hosts, CaProxies(registry)[0], Select(params), ca, save);
  }

  /**
   * A certname with no host: `create` runs once with the validated
   * attributes and no CA call is made. The table gains the new record only
   * when `save` succeeds; a `save` that returns false still reports success;
   * an exception while building or saving is reported as "Could not create
   * record. [<cause>]".
   */
  lemma NewHostIsCreatedNotRevoked(hosts: Hosts, registry: seq<SmartProxy>,
                                   params: Params, ca: CaResponse, save: SaveOutcome)
    requires CaProxies(registry) != []
    requires HasRequiredKeys(params)
    requires Lookup(params, "certname") !in hosts
    ensures var e := HandleRegister(hosts, registry, params, ca, save);
      var certname := Lookup(params, "certname");
      && e.caRequests == [] && e.created == [Select(params)]
      && e.hosts == (if save.Saved? then hosts[certname := HostFrom(Select(params))] else hosts)
      && e.response == (if save.Raised? then RegisterError(CreateFailed(save.errorMessage))
                        else RegisterSuccess())
  {
    ReachesRegisterValidated(hosts, registry, params, ca, save);
    RegisterValidatedBranches(hosts, CaProxies(registry)[0], Select(params), ca, save);
  }

  /**
   * Exactly one branch of `register` runs for a valid request: a create
   * attempt when no host is known under the certname, never both a create
   * and a revocation.
   */
  lemma ExactlyOneBranch(hosts: Hosts, registry: seq<SmartProxy>,
                         params: Params, ca: CaResponse, save: SaveOutcome)
    requires CaProxies(registry) != []
    requires HasRequiredKeys(params)
    ensures var e := HandleRegister(hosts, registry, params, ca, save);
      && (|e.created| == 1 <==> Lookup(params, "certname") !in hosts)
      && (e.caRequests != [] ==> e.created == [])
  {
    ReachesRegisterValidated(hosts, registry, params, ca, save);
    RegisterValidatedBranches(hosts, CaProxies(registry)[0], Select(params), ca, save);
  }

  /** Registration never removes or alters a record that was already in the table. */
  lemma RegisterKeepsExistingHosts(hosts: Hosts, registry: seq<SmartProxy>,
                                   params: Params, ca: CaResponse, save: SaveOutcome)
    ensures var e := HandleRegister(hosts, registry, params, ca, save);
      && hosts.Keys <= e.hosts.Keys
      && (forall k :: k in hosts ==> e.hosts[k] == hosts[k])
      && |e.hosts.Keys - hosts.Keys| <= 1
  {
    if CaProxies(registry) != [] {
      ActionKeepsExistingHosts(hosts, CaProxies(registry)[0], params, ca, save);
    }
  }

  /**
   * A 404 from the CA proxy is as good as a 200: the whole request ends
   * the same way, so a revocation can safely be repeated.
   */
  lemma RegisterRevocationIdempotent(hosts: Hosts, registry: seq<SmartProxy>,
                                     params: Params, save: SaveOutcome,
                                     header200: Option<string>, header404: Option<string>)
    ensures HandleRegister(hosts, registry, params, CaResponse(200, header200), save)
         == HandleRegister(hosts, registry, params, CaResponse(404, header404), save)
  {
    if CaProxies(registry) != [] {
      ActionRevocationIdempotent(hosts, CaProxies(registry)[0], params, save, header200, header404);
    }
  }

  lemma ActionRevocationIdempotent(hosts: Hosts, proxy: SmartProxy, params: Params,
                                   save: SaveOutcome, header200: Option<string>, header404: Option<string>)
    ensures RegisterAction(hosts, proxy, params, CaResponse(200, header200), save)
         == RegisterAction(hosts, proxy, params, CaResponse(404, header404), save)
  {
    if HasRequiredKeys(params) {
      var validated := Select(params);
      SelectKeepsCertname(params);
      RevokeIdempotent(Some(proxy), CA_API_PATH, Interpolate(Lookup(validated, "certname")), header200, header404);
      assert RevokeBranch(hosts, proxy, validated, CaResponse(200, header200))
          == RevokeBranch(hosts, proxy, validated, CaResponse(404, header404));
    }
  }

  /**
   * Registering a new node and then registering it again: the first request
   * creates the record, the second finds it, creates nothing and, when the
   * request names a certname, revokes that certificate at the selected proxy
   * (a redeployment).
   */
  lemma {:induction false} RegisterTwiceRevokesOnRedeploy(hosts: Hosts, registry: seq<SmartProxy>,
                                       params: Params, ca1: CaResponse, ca2: CaResponse, save2: SaveOutcome)
    requires CaProxies(registry) != []
    requires HasRequiredKeys(params)
    requires Lookup(params, "certname") !in hosts
    ensures var first := HandleRegister(hosts, registry, params, ca1, Saved);
      var second := HandleRegister(first.hosts, registry, params, ca2, save2);
      var certname := Lookup(params, "certname");
      && first.response == RegisterSuccess() && first.created == [Select(params)]
      && second.created == [] && second.hosts == first.hosts
      && second.caRequests == (if certname.Some?
                               then [Delete(CaProxies(registry)[0].url, RevokePath(certname.value))]
                               else [])
  {
    var certname := Lookup(params, "certname");
    NewHostIsCreatedNotRevoked(hosts, registry, params, ca1, Saved);
    var first := HandleRegister(hosts, registry, params, ca1, Saved);
    assert first.hosts == hosts[certname := HostFrom(Select(params))];
    ExistingHostIsRevokedNotCreated(first.hosts, registry, params, ca2, save2);
  }

  /** A registration keeps the table consistent: a new record is stored under its own certname. */
  lemma RegisterKeepsConsistent(hosts: Hosts, registry: seq<SmartProxy>,
                                params: Params, ca: CaResponse, save: SaveOutcome)
    requires Consistent(hosts)
    ensures Consistent(HandleRegister(hosts, registry, params, ca, save).hosts)
  {
    if CaProxies(registry) != [] && HasRequiredKeys(params) {
      var v := Select(params);
      SelectKeepsCertname(params);
      ValidatedHosts(hosts, CaProxies(registry)[0], v, ca, save);
      ConsistentInsert(hosts, Lookup(v, "certname"), HostFrom(v));
    }
  }

  lemma ConsistentInsert(hosts: Hosts, c: Option<string>, h: Host)
    requires Consistent(hosts) && h.certname == c
    ensures Consistent(hosts[c := h])
  {
  }
}
