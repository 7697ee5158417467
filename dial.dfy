/** The dial override (main.go:97-120): a dial function that ignores the
    requested network and address and reaches the resolved service over the
    ziti overlay, and its installation into the REST client configuration. */
module Dial {
  import opened Wrappers
  import opened Resolution

  /** A loaded ziti identity configuration, opaque to this model. */
  datatype IdentityConfig = IdentityConfig(document: string)

  /** The identity loader: the identity files that load, by path. A path with
      no entry is one whose load fails. */
  type Identities = map<string, IdentityConfig>

  /** What one call of the dial function does: the process exits with a
      status, or the ziti context built from `identity` dials `service` and
      its connection or error is handed back unchanged. */
  datatype DialOutcome = Exit(status: int) | ZitiDial(service: string, identity: IdentityConfig)

  /** The dial function. It reads the two package-level strings at call
      time. */
  function DialFunc(r: Resolver, identities: Identities, network: string, address: string): (o: DialOutcome)
    reads r
    ensures o.Exit? ==> o.status == 1
    ensures o.ZitiDial? <==> r.serviceName != "" && r.configFilePath in identities
    ensures o.ZitiDial? ==> o.service == r.serviceName && o.identity == identities[r.configFilePath]
  {
    var service := r.serviceName;
    if service == "" then Exit(1)
    else if r.configFilePath !in identities then Exit(1)
    else ZitiDial(service, identities[r.configFilePath])
  }

  /** An empty service name exits before the identity is loaded: the outcome
      is the same whatever the loader would have answered. */
  lemma EmptyServiceSkipsIdentityLoad(r: Resolver, ids1: Identities, ids2: Identities, network: string, address: string)
    requires r.serviceName == ""
    ensures DialFunc(r, ids1, network, address) == DialFunc(r, ids2, network, address) == Exit(1)
  {
  }

  /** The requested network and address play no part in the outcome. */
  lemma DialIgnoresAddress(r: Resolver, identities: Identities, network1: string, address1: string, network2: string, address2: string)
    ensures DialFunc(r, identities, network1, address1) == DialFunc(r, identities, network2, address2)
  {
  }

  /** Dialing right after start-up: with the resolved options, an empty
      service or an identity file that does not load exits with status 1,
      and otherwise the resolved service is dialed. */
  lemma DialAfterResolution(r: Resolver, zConfigFlag: string, serviceFlag: string, kubeconfigFlag: string,
                            env: Environment, identities: Identities, network: string, address: string)
    requires Resolved(zConfigFlag, serviceFlag, kubeconfigFlag, env) == Some(r.Options())
    ensures serviceFlag != "" && r.configFilePath in identities ==>
      DialFunc(r, identities, network, address) == ZitiDial(serviceFlag, identities[r.configFilePath])
    ensures r.serviceName == "" ==> DialFunc(r, identities, network, address) == Exit(1)
  {
  }

  /** Which dial function a REST client configuration uses. `ZitiDialer`
      stands for DialFunc over the package-level Resolver, called once per
      connection the transport opens. */
  datatype Dialer = DefaultDialer | ZitiDialer

  /** The REST client configuration object; only the dial hook and one
      representative other field are modelled. */
  class RestConfig {
    var host: string
    var dial: Dialer

    constructor (host: string)
      ensures this.host == host && dial == DefaultDialer
    {
      this.host := host;
      dial := DefaultDialer;
    }
  }

  /** Installs the ziti dial function and hands back the same object. */
  method WrapConfigFn(restConfig: RestConfig) returns (r: RestConfig)
    modifies restConfig`dial
    ensures r == restConfig
    ensures r.dial == ZitiDialer
    ensures r.host == old(restConfig.host)
  {
    restConfig.dial := ZitiDialer;
    return restConfig;
  }
}
