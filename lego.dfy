/** The parts of lego that the Huawei Cloud adapter consumes: the DNS-01 provider interface
    (`challenge.Provider`, optionally `challenge.ProviderTimeout`), the provider's configuration
    record and its constructor `NewDNSProviderConfig`. Their behaviour is not known here, so
    every result is left nondeterministic and every call is recorded in a ghost log. */
module Lego {
  import opened Wrappers
  import opened GoInts

  /** A Go `error` value, passed around without interpretation. */
  datatype Error = Error(message: string)

  /** The `(timeout, interval)` pair of `challenge.ProviderTimeout.Timeout`. */
  datatype TimeoutPair = TimeoutPair(timeout: Duration, interval: Duration)

  /** Lego's Huawei Cloud `Config`. The adapter sets the first five fields; `pollingInterval`
      and `httpTimeout` stand for what it never touches. */
  datatype ProviderConfig = ProviderConfig(
    accessKeyID: string,
    secretAccessKey: string,
    region: string,
    propagationTimeout: Duration,
    ttl: Int32,
    pollingInterval: Duration,
    httpTimeout: Duration)

  datatype Operation = PresentRecord | CleanUpRecord

  /** One call made on a provider, with what it returned (`None` is a nil error). */
  datatype Call = Call(op: Operation, domain: string, token: string, keyAuth: string, result: Option<Error>)

  /** A constructed DNS provider. Publishing and deleting the TXT record of section 8.4 of
      RFC 8555 is its job; here it only remembers what it was asked. */
  class DnsProvider {
    ghost var calls: seq<Call>

    /** `Some(pair)` when the provider also implements `challenge.ProviderTimeout` and
        reports `pair`; fixed for the provider's lifetime. */
    const timeoutCapability: Option<TimeoutPair>

    constructor (timeoutCapability: Option<TimeoutPair>)
      ensures this.timeoutCapability == timeoutCapability
      ensures calls == []
    {
      this.timeoutCapability := timeoutCapability;
      calls := [];
    }

    /** `Present(domain, token, keyAuth) error`: any outcome, recorded. */
    method Present(domain: string, token: string, keyAuth: string) returns (err: Option<Error>)
      modifies this
      ensures calls == old(calls) + [Call(PresentRecord, domain, token, keyAuth, err)]
    {
      err := *;
      calls := calls + [Call(PresentRecord, domain, token, keyAuth, err)];
    }

    /** `CleanUp(domain, token, keyAuth) error`: any outcome, recorded. */
    method CleanUp(domain: string, token: string, keyAuth: string) returns (err: Option<Error>)
      modifies this
      ensures calls == old(calls) + [Call(CleanUpRecord, domain, token, keyAuth, err)]
    {
      err := *;
      calls := calls + [Call(CleanUpRecord, domain, token, keyAuth, err)];
    }
  }

  /** One call of `NewDNSProviderConfig`: the configuration it got and what it returned. */
  datatype Construction = Construction(config: ProviderConfig, outcome: Result<DnsProvider, Error>)

  /** Lego's `NewDNSProviderConfig`, which validates a configuration (by rules not known here)
      and either fails or builds a fresh provider. */
  class ProviderFactory {
    ghost var constructions: seq<Construction>

    constructor ()
      ensures constructions == []
    {
      constructions := [];
    }

    method NewDNSProviderConfig(config: ProviderConfig) returns (r: Result<DnsProvider, Error>)
      modifies this
      ensures constructions == old(constructions) + [Construction(config, r)]
      ensures r.Success? ==> fresh(r.value) && r.value.calls == []
    {
      var rejected: bool := *;
      if rejected {
        var e: Error := *;
        r := Failure(e);
      } else {
        var capability: Option<TimeoutPair> := *;
        var provider := new DnsProvider(capability);
        r := Success(provider);
      }
      constructions := constructions + [Construction(config, r)];
    }
  }
}
