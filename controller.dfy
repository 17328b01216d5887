/**
 * The registrations controller as the objects it works with: the host table
 * it reads and writes, and the controller instance whose fields the
 * `before_filter` sets and the action reads
 * (app/controllers/api/v2/registrations_controller.rb). Rails builds one
 * controller per request; the host table outlives it. Each method is proved
 * to do what the functions of module Registration say.
 */
module Controller {
  import opened Wrappers
  import opened Envelope
  import opened Params
  import opened SmartProxyCa
  import opened Registration

  /** The `Host::Managed` table, keyed by the certname `find_by_certname` looks up. */
  class HostStore {
    var hosts: Hosts

    constructor (initial: Hosts)
      ensures hosts == initial
    {
      hosts := initial;
    }

    /** `Host::Managed.find_by_certname(certname)`: the record, or nil. */
    method FindByCertname(certname: Option<string>) returns (host: Option<Host>)
      ensures host.Some? <==> certname in hosts
      ensures host.Some? ==> host.value == hosts[certname]
    {
      if certname in hosts {
        host := Some(hosts[certname]);
      } else {
        host := None;
      }
    }

    /**
     * `host.save` for a newly built record, ending as `outcome` says: the
     * record is stored, `save` returns false, or an exception (class and
     * message) comes out of it.
     */
    method Save(key: Option<string>, host: Host, outcome: SaveOutcome) returns (r: Result<bool, (string, string)>)
      modifies this
      ensures r == (if outcome.Raised? then Failure((outcome.errorClass, outcome.errorMessage))
                    else Success(outcome.Saved?))
      ensures hosts == if outcome.Saved? then old(hosts)[key := host] else old(hosts)
    {
      match outcome
      case Saved =>
        hosts := hosts[key := host];
        r := Success(true);
      case NotSaved =>
        r := Success(false);
      case Raised(errorClass, errorMessage) =>
        r := Failure((errorClass, errorMessage));
    }
  }

  class RegistrationsController {
    const store: HostStore
    var caApiPath: string                 // @ca_api_path
    var caProxies: seq<SmartProxy>        // @ca_proxies
    var caProxy: Option<SmartProxy>       // @ca_proxy
    var rendered: Option<Response>        // what `render` produced
    var caRequests: seq<CaRequest>        // DELETEs sent to the CA proxy
    var created: seq<Params>              // attributes handed to `create`
    var log: seq<string>                  // lines written to the Rails log

    constructor (store: HostStore)
      ensures this.store == store
      ensures caProxy == None && rendered == None
      ensures caRequests == [] && created == [] && log == []
    {
      this.store := store;
      caApiPath := "";
      caProxies := [];
      caProxy := None;
      rendered := None;
      caRequests := [];
      created := [];
      log := [];
    }

    /**
     * The controller's observable state reflects `e` on top of what it had
     * already rendered, sent, created and logged.
     */
    ghost predicate Reflects(e: Effects, caRequests0: seq<CaRequest>, created0: seq<Params>, log0: seq<string>)
      reads this, store
    {
      && rendered == Some(e.response) && store.hosts == e.hosts
      && caRequests == caRequests0 + e.caRequests
      && created == created0 + e.created
      && log == log0 + e.log
    }

    /** `log(msg)`. */
    method Log(msg: string)
      modifies this`log
      ensures log == old(log) + [LogLine(msg)]
    {
      log := log + [LogLine(msg)];
    }

    /**
     * `check_smart_proxy_ca`, the `before_filter`: records the API path and
     * the CA proxies, selects the first, and raises when there is none; warns
     * when there are several.
     */
    method CheckSmartProxyCa(registry: seq<SmartProxy>) returns (raised: Outcome<Error>)
      modifies this`caApiPath, this`caProxies, this`caProxy, this`log
      ensures caApiPath == CA_API_PATH && caProxies == CaProxies(registry)
      ensures caProxy == (if caProxies == [] then None else Some(caProxies[0]))
      ensures raised == (if caProxies == [] then Fail(CaNotConfigured()) else Pass)
      ensures log == old(log) + (if caProxies == [] then [] else CaWarnings(caProxies))
    {
      caApiPath := CA_API_PATH;
      caProxies := CaProxies(registry);
      caProxy := if caProxies == [] then None else Some(caProxies[0]);
      if caProxy.None? {
        raised := Fail(CaNotConfigured());
        return;
      }
      if |caProxies| > 1 {
        Log(MULTIPLE_CA_MESSAGE);
      }
      raised := Pass;
    }

    /** `register_success`. */
    method RenderSuccess()
      modifies this`rendered
      ensures rendered == Some(RegisterSuccess())
    {
      rendered := Some(Response(true, SUCCESS_MESSAGE, 200));
    }

    /** `register_error(err)`, the `rescue_from` handler: log the exception, render 500. */
    method RescueError(err: Error)
      modifies this`rendered, this`log
      ensures rendered == Some(RegisterError(err))
      ensures log == old(log) + [ErrorLog(err)]
    {
      Log(ExceptionMessage(err.ClassName(), err.message));
      rendered := Some(Response(false, err.message, 500));
    }

    /**
     * `create(attrs)`: build and save the record; an exception from either
     * is logged and re-raised as "Could not create record. [<cause>]", and a
     * `save` returning false goes unnoticed.
     */
    method Create(attrs: Params, save: SaveOutcome) returns (raised: Outcome<Error>)
      requires HasRequiredKeys(attrs)
      modifies this`created, this`log, store
      ensures created == old(created) + [attrs]
      ensures store.hosts == if save.Saved? then old(store.hosts)[Lookup(attrs, "certname") := HostFrom(attrs)]
                             else old(store.hosts)
      ensures raised == if save.Raised? then Fail(CreateFailed(save.errorMessage)) else Pass
      ensures log == old(log) + (if save.Raised? then [LogLine(ExceptionMessage(save.errorClass, save.errorMessage))]
                                 else [])
    {
      created := created + [attrs];
      var r := store.Save(Lookup(attrs, "certname"), HostFrom(attrs), save);
      match r
      case Success(_) =>
        raised := Pass;
      case Failure(err) =>
        Log(ExceptionMessage(err.0, err.1));
        raised := Fail(CreateFailed(err.1));
    }

    /** `revoke_cert(certname)`: one DELETE to the selected proxy, classified by its status. */
    method RevokeCert(certname: string, ca: CaResponse) returns (raised: Outcome<Error>)
      modifies this`caRequests
      ensures var revocation := SmartProxyCa.RevokeCert(caProxy, caApiPath, certname, ca);
        caRequests == old(caRequests) + revocation.requests && raised == revocation.outcome
    {
      if caProxy.Some? {
        caRequests := caRequests + [Delete(caProxy.value.url, JoinPath(caApiPath, certname))];
        match ca.code
        case 200 => raised := Pass;
        case 404 => raised := Pass;
        case _ => raised := Fail(RevokeFailed(ca.statusHeader, certname));
      } else {
        raised := Fail(CaNotConfigured());
      }
    }

    /**
     * The `register` action, run after the `before_filter` has selected a
     * proxy, with `rescue_from` catching what it raises.
     */
    method Register(params: Params, ca: CaResponse, save: SaveOutcome)
      requires caProxy.Some? && caApiPath == CA_API_PATH
      modifies this`rendered, this`caRequests, this`created, this`log, store
      ensures caApiPath == old(caApiPath) && caProxies == old(caProxies) && caProxy == old(caProxy)
      ensures var e := RegisterAction(old(store.hosts), caProxy.value, params, ca, save);
        && rendered == Some(e.response) && store.hosts == e.hosts
        && caRequests == old(caRequests) + e.caRequests
        && created == old(created) + e.created
        && log == old(log) + e.log
    {
      var v := ValidateParams(params);
      if v.Failure? {
        RescueError(v.error);
        return;
      }
      RegisterValid(v.value, ca, save);
    }

    /** Lines 23-30 of `register`, on validated parameters. */
    method RegisterValid(validated: Params, ca: CaResponse, save: SaveOutcome)
      requires HasRequiredKeys(validated)
      requires caProxy.Some? && caApiPath == CA_API_PATH
      modifies this`rendered, this`caRequests, this`created, this`log, store
      ensures var e := RegisterValidated(old(store.hosts), caProxy.value, validated, ca, save);
        && rendered == Some(e.response) && store.hosts == e.hosts
        && caRequests == old(caRequests) + e.caRequests
        && created == old(created) + e.created
        && log == old(log) + e.log
    {
      var certname := Lookup(validated, "certname");
      ghost var hosts0 := store.hosts;
      var host := store.FindByCertname(certname);
      if host.Some? {
        if host.value.certname.Some? {
          assert RegisterValidated(hosts0, caProxy.value, validated, ca, save)
              == RevokeBranch(hosts0, caProxy.value, validated, ca);
          RevokeExisting(validated, ca);
        } else {
          assert RegisterValidated(hosts0, caProxy.value, validated, ca, save)
              == Effects(RegisterSuccess(), hosts0, [], [], [SuccessLog(validated)]);
          RenderSuccess();
          Log(SuccessMessage(validated));
        }
      } else {
        assert RegisterValidated(hosts0, caProxy.value, validated, ca, save)
            == CreateBranch(hosts0, validated, save);
        CreateNew(validated, save);
      }
    }

    /** The redeployment branch: revoke, then report. */
    method RevokeExisting(validated: Params, ca: CaResponse)
      requires HasRequiredKeys(validated)
      requires caProxy.Some? && caApiPath == CA_API_PATH
      modifies this`rendered, this`caRequests, this`log
      ensures var e := RevokeBranch(store.hosts, caProxy.value, validated, ca);
        && rendered == Some(e.response)
        && caRequests == old(caRequests) + e.caRequests
        && log == old(log) + e.log
    {
      var raised := RevokeCert(Interpolate(Lookup(validated, "certname")), ca);
      if raised.Fail? {
        RescueError(raised.error);
      } else {
        RenderSuccess();
        Log(SuccessMessage(validated));
      }
    }

    /** The new-node branch: create, then report. */
    method CreateNew(validated: Params, save: SaveOutcome)
      requires HasRequiredKeys(validated)
      modifies this`rendered, this`created, this`log, store
      ensures var e := CreateBranch(old(store.hosts), validated, save);
        && rendered == Some(e.response) && store.hosts == e.hosts
        && created == old(created) + e.created
        && log == old(log) + e.log
    {
      var raised := Create(validated, save);
      if raised.Fail? {
        RescueError(raised.error);
      } else {
        RenderSuccess();
        Log(SuccessMessage(validated));
      }
    }

    /** One request: the `before_filter`, then the action, each under `rescue_from`. */
    method Process(registry: seq<SmartProxy>, params: Params, ca: CaResponse, save: SaveOutcome)
      modifies this, store
      ensures caApiPath == CA_API_PATH && caProxies == CaProxies(registry)
      ensures caProxy == (if caProxies == [] then None else Some(caProxies[0]))
      ensures Reflects(HandleRegister(old(store.hosts), registry, params, ca, save),
                       old(caRequests), old(created), old(log))
    {
      ghost var hosts0, caRequests0, created0, log0 := store.hosts, caRequests, created, log;
      var raised := CheckSmartProxyCa(registry);
      if raised.Fail? {
        RejectWithoutCa(registry, params, ca, save, hosts0, log0);
      } else {
        RegisterWithCa(registry, params, ca, save, hosts0, caRequests0, created0, log0);
      }
    }

    /** The `before_filter` raised: `rescue_from` renders the configuration error. */
    method RejectWithoutCa(registry: seq<SmartProxy>, params: Params, ca: CaResponse, save: SaveOutcome,
                           ghost hosts0: Hosts, ghost log0: seq<string>)
      requires CaProxies(registry) == [] && store.hosts == hosts0 && log == log0
      modifies this`rendered, this`log
      ensures Reflects(HandleRegister(hosts0, registry, params, ca, save), caRequests, created, log0)
      ensures caApiPath == old(caApiPath) && caProxies == old(caProxies) && caProxy == old(caProxy)
    {
      RescueError(CaNotConfigured());
    }

    /** The `before_filter` passed, having logged its warnings after `log0`: run the action. */
    method RegisterWithCa(registry: seq<SmartProxy>, params: Params, ca: CaResponse, save: SaveOutcome,
                          ghost hosts0: Hosts, ghost caRequests0: seq<CaRequest>, ghost created0: seq<Params>,
                          ghost log0: seq<string>)
      requires caApiPath == CA_API_PATH && caProxies == CaProxies(registry) != []
      requires caProxy == Some(caProxies[0])
      requires store.hosts == hosts0 && caRequests == caRequests0 && created == created0
      requires log == log0 + CaWarnings(caProxies)
      modifies this`rendered, this`caRequests, this`created, this`log, store
      ensures Reflects(HandleRegister(hosts0, registry, params, ca, save), caRequests0, created0, log0)
      ensures caApiPath == old(caApiPath) && caProxies == old(caProxies) && caProxy == old(caProxy)
    {
      ghost var a := RegisterAction(store.hosts, caProxy.value, params, ca, save);
      Register(params, ca, save);
      AppendAssociative(log0, CaWarnings(caProxies), a.log);
    }
  }
}
