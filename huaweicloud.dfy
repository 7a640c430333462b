/** Certimate's ACME DNS-01 challenger for Huawei Cloud: a thin adapter around lego's
    Huawei Cloud provider that translates the challenger configuration once, and strips
    one trailing dot from every domain before forwarding a call. */
module HuaweiCloud {
  import opened Wrappers
  import opened GoInts
  import opened Domains
  import opened Lego

  /** `ChallengerConfig`: zero in either integer field means "keep lego's default". */
  datatype ChallengerConfig = ChallengerConfig(
    accessKeyId: string,
    secretAccessKey: string,
    region: string,
    dnsPropagationTimeout: Int64,
    dnsTTL: Int64)

  /** Huawei Cloud's SDK insists on a region, although DNS-01 itself never needs one. */
  const DefaultRegion: string := "cn-north-1"

  const NilConfigError: Error := Error("the configuration of the acme challenge provider is nil")

  /** `provider` is what lego is given for `config` when it starts from `defaults`: the
      credentials copied, the region defaulted when empty, each optional field overriding the
      default only when nonzero, and everything else left as in `defaults`. */
  predicate IsTranslation(config: ChallengerConfig, defaults: ProviderConfig, provider: ProviderConfig) {
    && provider.accessKeyID == config.accessKeyId
    && provider.secretAccessKey == config.secretAccessKey
    && provider.region == (if config.region == "" then DefaultRegion else config.region)
    && provider.propagationTimeout ==
         (if config.dnsPropagationTimeout != 0 then SecondsToDuration(config.dnsPropagationTimeout)
          else defaults.propagationTimeout)
    && provider.ttl == (if config.dnsTTL != 0 then ToInt32(config.dnsTTL) else defaults.ttl)
    && provider.pollingInterval == defaults.pollingInterval
    && provider.httpTimeout == defaults.httpTimeout
  }

  /** Builds lego's configuration from the default one, a field at a time. */
  method ProviderConfigFor(config: ChallengerConfig, defaults: ProviderConfig) returns (provider: ProviderConfig)
    ensures IsTranslation(config, defaults, provider)
  {
    var region := config.region;
    if region == "" {
      region := DefaultRegion;
    }
    provider := defaults;
    provider := provider.(accessKeyID := config.accessKeyId);
    provider := provider.(secretAccessKey := config.secretAccessKey);
    provider := provider.(region := region);
    if config.dnsPropagationTimeout != 0 {
      provider := provider.(propagationTimeout := SecondsToDuration(config.dnsPropagationTimeout));
    }
    if config.dnsTTL != 0 {
      provider := provider.(ttl := ToInt32(config.dnsTTL));
    }
  }

  /** The translation leaves no choice: it is a function of the configuration and the defaults. */
  lemma TranslationIsUnique(config: ChallengerConfig, defaults: ProviderConfig, p: ProviderConfig, q: ProviderConfig)
    requires IsTranslation(config, defaults, p) && IsTranslation(config, defaults, q)
    ensures p == q
  {
  }

  /** Lego always receives a region, as Huawei Cloud's SDK demands. */
  lemma TranslatedRegion(config: ChallengerConfig, defaults: ProviderConfig, provider: ProviderConfig)
    requires IsTranslation(config, defaults, provider)
    ensures provider.region != ""
  {
  }

  /** A nonzero value within range is passed exactly, the timeout scaled from seconds to
      nanoseconds. */
  lemma TranslatedTimings(config: ChallengerConfig, defaults: ProviderConfig, provider: ProviderConfig)
    requires IsTranslation(config, defaults, provider)
    ensures config.dnsPropagationTimeout != 0 && -MaxDurationSeconds <= config.dnsPropagationTimeout <= MaxDurationSeconds
      ==> provider.propagationTimeout == config.dnsPropagationTimeout * NanosPerSecond
    ensures config.dnsTTL != 0 && -TwoTo31 <= config.dnsTTL < TwoTo31 ==> provider.ttl == config.dnsTTL
  {
  }

  /** The `int32` conversion of the TTL lets a nonzero setting through as an explicit zero. */
  lemma NonzeroTTLCanArriveAsZero(defaults: ProviderConfig, provider: ProviderConfig)
    requires IsTranslation(ChallengerConfig("AK", "SK", "", 0, TwoTo32), defaults, provider)
    ensures provider.ttl == 0
  {
  }

  /** The challenger handed to the ACME engine (`wrapperProvider`). */
  class WrapperProvider {
    const provider: DnsProvider

    constructor (provider: DnsProvider)
      ensures this.provider == provider
    {
      this.provider := provider;
    }

    /** Exactly one `Present` call reaches the provider, with the normalised domain and the
        token and key authorization unchanged; its error comes back as it is. */
    method Present(domain: string, token: string, keyAuth: string) returns (err: Option<Error>)
      modifies provider
      ensures provider.calls == old(provider.calls) + [Call(PresentRecord, NormalizeDomain(domain), token, keyAuth, err)]
    {
      var normalizedDomain := TrimSuffix(domain, ".");
      err := provider.Present(normalizedDomain, token, keyAuth);
    }

    /** As `Present`, but forwarding to the provider's `CleanUp`. */
    method CleanUp(domain: string, token: string, keyAuth: string) returns (err: Option<Error>)
      modifies provider
      ensures provider.calls == old(provider.calls) + [Call(CleanUpRecord, NormalizeDomain(domain), token, keyAuth, err)]
    {
      var normalizedDomain := TrimSuffix(domain, ".");
      err := provider.CleanUp(normalizedDomain, token, keyAuth);
    }

    /** The provider's own pair when it has the capability, the zero pair otherwise. */
    function Timeout(): (r: TimeoutPair)
      ensures provider.timeoutCapability.Some? ==> r == provider.timeoutCapability.value
      ensures provider.timeoutCapability.None? ==> r == TimeoutPair(0, 0)
    {
      match provider.timeoutCapability
      case Some(pair) => pair
      case None => TimeoutPair(0, 0)
    }
  }

  /** `NewChallenger`: a nil configuration fails before lego is consulted; otherwise lego is
      asked once, with the translated configuration, and its error is returned unchanged or
      its provider wrapped. `defaults` is what `hwc.NewDefaultConfig()` returned. */
  method NewChallenger(config: Option<ChallengerConfig>, defaults: ProviderConfig, lego: ProviderFactory)
    returns (r: Result<WrapperProvider, Error>)
    modifies lego
    ensures config.None? ==> r == Failure(NilConfigError) && lego.constructions == old(lego.constructions)
    ensures config.Some? ==>
      && |lego.constructions| == |old(lego.constructions)| + 1
      && lego.constructions[..|old(lego.constructions)|] == old(lego.constructions)
      && var built := lego.constructions[|old(lego.constructions)|];
         && IsTranslation(config.value, defaults, built.config)
         && (built.outcome.Failure? ==> r == Failure(built.outcome.error))
         && (built.outcome.Success? ==>
               && r.Success? && fresh(r.value) && r.value.provider == built.outcome.value
               && fresh(r.value.provider) && r.value.provider.calls == [])
  {
    if config.None? {
      return Failure(NilConfigError);
    }
    var providerConfig := ProviderConfigFor(config.value, defaults);
    var built := lego.NewDNSProviderConfig(providerConfig);
    if built.Failure? {
      return Failure(built.error);
    }
    var wrapper := new WrapperProvider(built.value);
    r := Success(wrapper);
  }

  /** One challenge cycle: build with an empty region, then `Present` and `CleanUp` the same
      dotted domain. Lego sees region "cn-north-1", and the provider sees the undotted domain
      twice with the token and key authorization untouched. */
  method ChallengeCycle(defaults: ProviderConfig, lego: ProviderFactory)
    returns (r: Result<WrapperProvider, Error>)
    modifies lego
    ensures |lego.constructions| == |old(lego.constructions)| + 1
    ensures lego.constructions[|lego.constructions| - 1].config.region == "cn-north-1"
    ensures r.Success? ==>
      && fresh(r.value)
      && var calls := r.value.provider.calls;
         && |calls| == 2
         && calls[0] == Call(PresentRecord, "foo.bar", "tok", "auth", calls[0].result)
         && calls[1] == Call(CleanUpRecord, "foo.bar", "tok", "auth", calls[1].result)
  {
    r := NewChallenger(Some(ChallengerConfig("AK", "SK", "", 0, 0)), defaults, lego);
    if r.Success? {
      var challenger := r.value;
      NormalizeDottedDomain("foo.bar");
      var _ := challenger.Present("foo.bar.", "tok", "auth");
      var _ := challenger.CleanUp("foo.bar.", "tok", "auth");
    }
  }
}
