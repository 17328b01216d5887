/**
 * The Puppet CA Smart Proxy: how the controller picks one
 * (`check_smart_proxy_ca`, app/controllers/api/v2/registrations_controller.rb
 * lines 35-47) and how it classifies the answer to a certificate revocation
 * (`revoke_cert`, lines 89-114). The HTTP DELETE itself is not modelled: the
 * proxy's answer is a parameter, and a request is recorded as the proxy URL
 * and the path it was sent to.
 */
module SmartProxyCa {
  import opened Wrappers
  import opened Envelope

  const CA_FEATURE: string := "Puppet CA"
  const CA_API_PATH: string := "/puppet/ca"
  const CA_MISSING_MESSAGE: string :=
    "You must configure a `Puppet CA` Smart Proxy to use the Registration controller!"
  const MULTIPLE_CA_MESSAGE: string := "More than one `Puppet CA` defined!"

  /** A registered Smart Proxy: its URL and the names of the features it offers. */
  datatype SmartProxy = SmartProxy(url: string, features: seq<string>)

  predicate HasCaFeature(p: SmartProxy)
  {
    CA_FEATURE in p.features
  }

  /**
   * `SmartProxy.joins(:features).where(:features => { :name => 'Puppet CA' })`:
   * the registered proxies offering the CA feature, in registry order.
   */
  function CaProxies(registry: seq<SmartProxy>): (r: seq<SmartProxy>)
    ensures |r| <= |registry|
  {
    if registry == [] then []
    else if HasCaFeature(registry[0]) then [registry[0]] + CaProxies(registry[1..])
    else CaProxies(registry[1..])
  }

  /** The query finds exactly the registered proxies that offer the CA feature. */
  lemma {:induction false} CaProxiesMembers(registry: seq<SmartProxy>)
    ensures forall p :: p in CaProxies(registry) <==> p in registry && HasCaFeature(p)
  {
    if registry != [] {
      CaProxiesMembers(registry[1..]);
      assert registry == [registry[0]] + registry[1..];
    }
  }

  /** The first CA proxy of the query is the earliest registered proxy offering the feature. */
  lemma {:induction false} CaProxiesStartWithFirstCa(registry: seq<SmartProxy>, i: nat)
    requires i < |registry| && HasCaFeature(registry[i])
    requires forall j :: 0 <= j < i ==> !HasCaFeature(registry[j])
    ensures CaProxies(registry) != [] && CaProxies(registry)[0] == registry[i]
  {
    if i > 0 {
      assert !HasCaFeature(registry[0]);
      CaProxiesStartWithFirstCa(registry[1..], i - 1);
    }
  }

  /** Positions `i < j` of the registry both hold a proxy offering the CA feature. */
  predicate TwoCaAt(registry: seq<SmartProxy>, i: int, j: int)
  {
    0 <= i < j < |registry| && HasCaFeature(registry[i]) && HasCaFeature(registry[j])
  }

  /** Each registered CA proxy is listed: two of them in the registry make the query find more than one. */
  lemma {:induction false} TwoCaProxiesFound(registry: seq<SmartProxy>, i: int, j: int)
    requires TwoCaAt(registry, i, j)
    ensures |CaProxies(registry)| > 1
  {
    if i == 0 {
      CaProxiesMembers(registry[1..]);
      assert registry[1..][j - 1] == registry[j];
    } else {
      assert TwoCaAt(registry[1..], i - 1, j - 1);
      TwoCaProxiesFound(registry[1..], i - 1, j - 1);
    }
  }

  /** The query finds nothing that is not registered: more than one CA proxy found means two registered ones. */
  lemma {:induction false} SeveralCaProxiesRegistered(registry: seq<SmartProxy>)
    requires |CaProxies(registry)| > 1
    ensures exists i, j :: TwoCaAt(registry, i, j)
  {
    var rest := registry[1..];
    if HasCaFeature(registry[0]) {
      CaProxiesMembers(rest);
      var p := CaProxies(rest)[0];
      assert p in CaProxies(rest);
      var k :| 0 <= k < |rest| && rest[k] == p;
      assert TwoCaAt(registry, 0, k + 1);
    } else {
      SeveralCaProxiesRegistered(rest);
      var i, j :| TwoCaAt(rest, i, j);
      assert TwoCaAt(registry, i + 1, j + 1);
    }
  }

  /** The error raised when no proxy offers the CA feature. */
  function CaNotConfigured(): (err: Error)
    ensures err.RegistrationsControllerError? && err.message == CA_MISSING_MESSAGE
  {
    RegistrationsControllerError(CA_MISSING_MESSAGE)
  }

  /** `@ca_proxies.first`, raising when there is none. */
  function SelectCaProxy(proxies: seq<SmartProxy>): (r: Result<SmartProxy, Error>)
    ensures r.Success? <==> |proxies| > 0
    ensures r.Success? ==> r.value in proxies
    ensures r.Failure? ==> r.error == CaNotConfigured()
  {
    if proxies == [] then Failure(CaNotConfigured()) else Success(proxies[0])
  }

  /**
   * Resolving the CA proxy fails exactly when no registered proxy offers the
   * feature, and otherwise picks the earliest registered one that does.
   */
  lemma {:induction false} SelectCaProxyFromRegistry(registry: seq<SmartProxy>, i: nat)
    requires i < |registry| && HasCaFeature(registry[i])
    requires forall j :: 0 <= j < i ==> !HasCaFeature(registry[j])
    ensures SelectCaProxy(CaProxies(registry)) == Success(registry[i])
  {
    if i > 0 {
      assert !HasCaFeature(registry[0]);
      SelectCaProxyFromRegistry(registry[1..], i - 1);
    }
  }

  /** With no CA-capable proxy registered, resolution always fails with the configuration error. */
  lemma {:induction false} SelectCaProxyNoneRegistered(registry: seq<SmartProxy>)
    requires forall j :: 0 <= j < |registry| ==> !HasCaFeature(registry[j])
    ensures SelectCaProxy(CaProxies(registry)) == Failure(CaNotConfigured())
  {
    if registry != [] {
      SelectCaProxyNoneRegistered(registry[1..]);
    }
  }

  /** The warning is logged exactly when the query found more than one CA proxy. */
  function CaWarnings(proxies: seq<SmartProxy>): (w: seq<string>)
    ensures |w| <= 1
    ensures w != [] <==> |proxies| > 1
    ensures forall m :: m in w ==> m == LogLine(MULTIPLE_CA_MESSAGE)
  {
    if |proxies| > 1 then [LogLine(MULTIPLE_CA_MESSAGE)] else []
  }

  /** The multiple-CA warning is logged exactly when two registered proxies offer the CA feature. */
  lemma WarnsIffTwoCaProxies(registry: seq<SmartProxy>)
    ensures CaWarnings(CaProxies(registry)) != [] <==> exists i, j :: TwoCaAt(registry, i, j)
  {
    if |CaProxies(registry)| > 1 {
      SeveralCaProxiesRegistered(registry);
    }
    if exists i, j :: TwoCaAt(registry, i, j) {
      var i, j :| TwoCaAt(registry, i, j);
      TwoCaProxiesFound(registry, i, j);
    }
  }

  /** `[a, b].join('/')`. */
  function JoinPath(base: string, name: string): (r: string)
    ensures |r| == |base| + 1 + |name|
    ensures r[..|base|] == base && r[|base|] == '/' && r[|base| + 1..] == name
  {
    base + "/" + name
  }

  /** The path a revocation is sent to: `/puppet/ca/<certname>`. */
  function RevokePath(certname: string): (path: string)
    ensures CertnameOfPath(path) == Some(certname)
  {
    JoinPath(CA_API_PATH, certname)
  }

  /** Reads the certificate name back out of a revocation path. */
  function CertnameOfPath(path: string): Option<string>
  {
    var prefix := CA_API_PATH + "/";
    if |prefix| <= |path| && path[..|prefix|] == prefix then Some(path[|prefix|..]) else None
  }

  /** Distinct certificates are revoked at distinct paths. */
  lemma RevokePathInjective(c1: string, c2: string)
    requires RevokePath(c1) == RevokePath(c2)
    ensures c1 == c2
  {
    assert CertnameOfPath(RevokePath(c1)) == Some(c1);
  }

  /** The proxy's answer: the HTTP status code and the `status` response header (nil when absent). */
  datatype CaResponse = CaResponse(code: int, statusHeader: Option<string>)

  const REVOKE_ERROR_HEAD: string := "Error: response was '"
  const REVOKE_ERROR_MIDDLE: string := "' while trying to revoke `"

  /** The error raised when the proxy answers a revocation with anything but 200 or 404. */
  function RevokeFailed(statusHeader: Option<string>, certname: string): (err: Error)
    ensures err.RegistrationsControllerError?
  {
    RegistrationsControllerError(
      REVOKE_ERROR_HEAD + Interpolate(statusHeader) + REVOKE_ERROR_MIDDLE + certname + "`")
  }

  /** The revocation error tells the operator which status the proxy gave and which certificate it was about. */
  lemma RevokeFailedNamesStatusAndCertname(statusHeader: Option<string>, certname: string)
    ensures var msg := RevokeFailed(statusHeader, certname).message;
      var s := Interpolate(statusHeader);
      var at := |REVOKE_ERROR_HEAD| + |s| + |REVOKE_ERROR_MIDDLE|;
      && |msg| == at + |certname| + 1
      && msg[|REVOKE_ERROR_HEAD|..|REVOKE_ERROR_HEAD| + |s|] == s
      && msg[at..at + |certname|] == certname
  {
    var s := Interpolate(statusHeader);
    var msg := REVOKE_ERROR_HEAD + s + REVOKE_ERROR_MIDDLE + certname + "`";
    var at := |REVOKE_ERROR_HEAD| + |s| + |REVOKE_ERROR_MIDDLE|;
    assert msg == (REVOKE_ERROR_HEAD + s) + (REVOKE_ERROR_MIDDLE + certname + "`");
    assert msg == (REVOKE_ERROR_HEAD + s + REVOKE_ERROR_MIDDLE) + (certname + "`");
  }

  /** The `case response.status` of `revoke_cert`: 200 and 404 succeed, anything else raises. */
  function ClassifyRevoke(certname: string, response: CaResponse): (r: Outcome<Error>)
    ensures r.Pass? <==> response.code == 200 || response.code == 404
    ensures r.Fail? ==> r.error == RevokeFailed(response.statusHeader, certname)
  {
    if response.code == 200 then Pass
    else if response.code == 404 then Pass
    else Fail(RevokeFailed(response.statusHeader, certname))
  }

  /** A DELETE sent to a proxy: the proxy's URL and the request path. */
  datatype CaRequest = Delete(url: string, path: string)

  /** What one call of `revoke_cert` does: the requests it sends and whether it raised. */
  datatype Revocation = Revocation(requests: seq<CaRequest>, outcome: Outcome<Error>)

  /**
   * `revoke_cert(certname)` with the controller's `@ca_proxy` and `@ca_api_path`:
   * one DELETE to the selected proxy, classified; without a proxy, no request
   * and the configuration error.
   */
  function RevokeCert(caProxy: Option<SmartProxy>, apiPath: string, certname: string, response: CaResponse)
    : (r: Revocation)
    ensures caProxy.None? ==> r.requests == [] && r.outcome == Fail(CaNotConfigured())
    ensures caProxy.Some? ==> |r.requests| == 1 && r.requests[0].url == caProxy.value.url
    ensures caProxy.Some? && apiPath == CA_API_PATH ==> r.requests == [Delete(caProxy.value.url, RevokePath(certname))]
    ensures r.outcome.Pass? <==> caProxy.Some? && (response.code == 200 || response.code == 404)
    ensures caProxy.Some? && response.code != 200 && response.code != 404
      ==> r.outcome == Fail(RevokeFailed(response.statusHeader, certname))
  {
    match caProxy
    case None => Revocation([], Fail(CaNotConfigured()))
    case Some(proxy) =>
      Revocation([Delete(proxy.url, JoinPath(apiPath, certname))], ClassifyRevoke(certname, response))
  }

  /**
   * Revocation is idempotent: a proxy answering 404 (certificate already gone)
   * leads to exactly the same requests and outcome as one answering 200.
   */
  lemma RevokeIdempotent(caProxy: Option<SmartProxy>, apiPath: string, certname: string,
                         header200: Option<string>, header404: Option<string>)
    ensures RevokeCert(caProxy, apiPath, certname, CaResponse(200, header200))
         == RevokeCert(caProxy, apiPath, certname, CaResponse(404, header404))
  {
  }
}
