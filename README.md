# Huawei Cloud DNS-01 challenger, modelled in Dafny

Certimate issues TLS certificates over ACME. For the DNS-01 challenge it plugs in one
challenger per DNS service. The Huawei Cloud challenger
(`pkg/core/certifier/challengers/dns01/huaweicloud/huaweicloud.go`) is a thin adapter around
lego's Huawei Cloud DNS provider. It contributes three things, and this project models and
proves each one:

1. **Configuration translation (`NewChallenger`).** A nil configuration is rejected before
   lego is called. Otherwise lego's default configuration is updated a field at a time:
   - the credentials are copied;
   - an empty region becomes `"cn-north-1"`, a quirk of Huawei Cloud's SDK (DNS-01 itself
     needs no region);
   - the propagation timeout (seconds, scaled to nanoseconds) and the TTL override the
     defaults only when they are nonzero.

   Lego's constructor then either fails, and its error is returned unchanged, or returns a
   provider, which is wrapped.
2. **Domain normalisation and forwarding (`Present`, `CleanUp`).** One trailing `"."` is
   removed (`strings.TrimSuffix(domain, ".")`). The call goes to the provider with the token
   and key authorization unchanged, and the provider's error comes back as it is.
3. **Timeout delegation (`Timeout`).** The wrapper returns the provider's own
   `(timeout, interval)` when the provider has that optional capability, and `(0, 0)`
   otherwise.

Files and modules:
- `wrappers.dfy` (`Wrappers`) holds `Option` and `Result`.
- `goints.dfy` (`GoInts`) holds Go's `int`/`int64`, `int32` and `time.Duration`, with
  wrap-around written out.
- `domains.dfy` (`Domains`) holds `strings.HasSuffix`/`TrimSuffix` and the normalisation.
- `lego.dfy` (`Lego`) is the lego interface the adapter consumes.
- `huaweicloud.dfy` (`HuaweiCloud`) is the adapter itself.

How the lego side is modelled:
- Lego's code is not part of this model. Its provider (`DnsProvider`) and its constructor
  `NewDNSProviderConfig` (`ProviderFactory`) are objects that return arbitrary results.
- Each of them keeps a ghost log of every call and of what it returned. The adapter's
  contracts therefore state exactly what was forwarded, and that results pass through.
- The optional `challenge.ProviderTimeout` capability is a constant
  `Option<TimeoutPair>`, fixed when the provider is built. It is not a runtime type assertion.
- `hwc.NewDefaultConfig()` reads lego's defaults, which this model does not cover. It
  enters `NewChallenger` as the input record `defaults`.

Normalisation removes at most one dot:
- `strings.TrimSuffix` removes a single trailing dot, so `"a.."` becomes `"a."`, and then `"a"`.
- `Domains.NormalizeIdempotentIff` shows that normalisation is idempotent exactly when the
  domain does not end in `".."`.
- `Domains.NormalizeAgreesWithTrimTrailingDots` compares it with the strip-every-dot
  alternative, Go's `strings.TrimRight(domain, ".")` (`TrimTrailingDots`). The two agree
  exactly under the same condition.
- The code does no case folding, and neither does the model.

Integer widths are modelled as written for a 64-bit build, where Go's `int` has 64 bits:
- `time.Duration(s) * time.Second` wraps modulo 2^64.
- `int32(config.DnsTTL)` keeps the low 32 bits.
- Within range both are exact (`HuaweiCloud.TranslatedTimings`).
- Out of range, a nonzero setting can still reach lego as an explicit zero
  (`HuaweiCloud.NonzeroTTLCanArriveAsZero`, `GoInts.NonzeroToZeroDuration`).

Strings are `seq<char>`. Go compares bytes, but in UTF-8 the byte `0x2E` occurs only as
`"."` itself, so "ends with the byte `.`" and "ends with the character `.`" agree.

## Model

| member | source | states |
|---|---|---|
| `GoInts.WrapInt64` | pkg/core/certifier/challengers/dns01/huaweicloud/huaweicloud.go:63 | the 64-bit result is congruent to the exact value modulo 2^64, and equal to it when it is in `int64` range |
| `GoInts.SecondsToDuration` | pkg/core/certifier/challengers/dns01/huaweicloud/huaweicloud.go:63 | seconds times 10^9 with 64-bit wrap-around; exactly `s * 10^9` when \|s\| is at most 9223372036 |
| `GoInts.ToInt32` | pkg/core/certifier/challengers/dns01/huaweicloud/huaweicloud.go:66 | `int32(x)` is congruent to x modulo 2^32 and equals x when x is in `int32` range |
| `GoInts.NonzeroToZeroInt32` | pkg/core/certifier/challengers/dns01/huaweicloud/huaweicloud.go:65-66 | a nonzero `int` (2^32) converts to a zero `int32` |
| `GoInts.NonzeroToZeroDuration` | pkg/core/certifier/challengers/dns01/huaweicloud/huaweicloud.go:62-63 | a nonzero number of seconds (2^55) wraps to a zero duration |
| `Domains.TrimSuffix` | pkg/core/certifier/challengers/dns01/huaweicloud/huaweicloud.go:28 | with the suffix present, result plus suffix is the input; without it, the input unchanged |
| `Domains.NormalizeDomain` | pkg/core/certifier/challengers/dns01/huaweicloud/huaweicloud.go:28-34 | the domain handed to the backend is a prefix of the given one, at most one character shorter |
| `Domains.TrimAppendedSuffix` | pkg/core/certifier/challengers/dns01/huaweicloud/huaweicloud.go:28 | trimming an appended suffix gives back exactly the string it was appended to |
| `Domains.NormalizeDomainShape` | pkg/core/certifier/challengers/dns01/huaweicloud/huaweicloud.go:26-36 | exactly one trailing dot is removed when present and nothing changes otherwise; the result is a prefix at most one character shorter |
| `Domains.NormalizeDottedDomain` | pkg/core/certifier/challengers/dns01/huaweicloud/huaweicloud.go:28 | normalising `d + "."` gives `d`, for every `d` |
| `Domains.NormalizeFixedPoint` | pkg/core/certifier/challengers/dns01/huaweicloud/huaweicloud.go:28 | a domain is left unchanged if and only if it has no trailing dot |
| `Domains.NormalizeIgnoresOneTrailingDot` | pkg/core/certifier/challengers/dns01/huaweicloud/huaweicloud.go:26-36 | `d + "."` and `d` reach the backend as the same domain if and only if `d` has no trailing dot (so `"foo.bar."` and `"foo.bar"` do) |
| `Domains.NormalizeIdempotentIff` | pkg/core/certifier/challengers/dns01/huaweicloud/huaweicloud.go:28 | normalising twice equals normalising once if and only if the domain does not end in `".."` |
| `Domains.TrimTrailingDots` | pkg/core/certifier/challengers/dns01/huaweicloud/huaweicloud.go:28 | Go's `strings.TrimRight(domain, ".")`, not used by the file, kept for comparison with line 28's single trim: a prefix with no trailing dot, where all removed characters are dots |
| `Domains.TrimTrailingDotsIdempotent` | pkg/core/certifier/challengers/dns01/huaweicloud/huaweicloud.go:28 | the strip-every-dot reference is idempotent |
| `Domains.NormalizeAgreesWithTrimTrailingDots` | pkg/core/certifier/challengers/dns01/huaweicloud/huaweicloud.go:28 | the single trim equals the strip-every-dot reference if and only if there is no `".."` suffix, and both lead to the same bare name |
| `Domains.NormalizeExamples` | pkg/core/certifier/challengers/dns01/huaweicloud/huaweicloud.go:28 | `"example.com."` gives `"example.com"`, `"example.com"` stays, `"a.."` gives `"a."` and then `"a"` |
| `Lego.DnsProvider.Present` | pkg/core/certifier/challengers/dns01/huaweicloud/huaweicloud.go:29 | the backend call is logged with its arguments and the error it returned |
| `Lego.DnsProvider.CleanUp` | pkg/core/certifier/challengers/dns01/huaweicloud/huaweicloud.go:35 | the backend call is logged with its arguments and the error it returned |
| `Lego.ProviderFactory.NewDNSProviderConfig` | pkg/core/certifier/challengers/dns01/huaweicloud/huaweicloud.go:69 | each construction is logged with its configuration and outcome; a success is a fresh provider with no calls yet |
| `HuaweiCloud.ProviderConfigFor` | pkg/core/certifier/challengers/dns01/huaweicloud/huaweicloud.go:52-67 | the built configuration copies the credentials, defaults an empty region, overrides the timeout and TTL only when nonzero, and keeps every other default |
| `HuaweiCloud.TranslationIsUnique` | pkg/core/certifier/challengers/dns01/huaweicloud/huaweicloud.go:58-67 | that description fixes the configuration completely, so nothing else in the defaults can change |
| `HuaweiCloud.TranslatedRegion` | pkg/core/certifier/challengers/dns01/huaweicloud/huaweicloud.go:52-61 | lego always gets a nonempty region, whatever the configured one |
| `HuaweiCloud.TranslatedTimings` | pkg/core/certifier/challengers/dns01/huaweicloud/huaweicloud.go:62-67 | a nonzero in-range value arrives exactly, the timeout as seconds times 10^9 nanoseconds |
| `HuaweiCloud.NonzeroTTLCanArriveAsZero` | pkg/core/certifier/challengers/dns01/huaweicloud/huaweicloud.go:65-66 | a `DnsTTL` of 2^32 passes the nonzero guard and reaches lego as TTL 0 |
| `HuaweiCloud.WrapperProvider.constructor` | pkg/core/certifier/challengers/dns01/huaweicloud/huaweicloud.go:22-24 | the wrapper holds exactly the given provider |
| `HuaweiCloud.WrapperProvider.Present` | pkg/core/certifier/challengers/dns01/huaweicloud/huaweicloud.go:26-30 | exactly one backend `Present` call, with the normalised domain and the token and key authorization unchanged; the backend's error is returned unmodified |
| `HuaweiCloud.WrapperProvider.CleanUp` | pkg/core/certifier/challengers/dns01/huaweicloud/huaweicloud.go:32-36 | exactly one backend `CleanUp` call, with the same normalised domain `Present` would forward; the backend's error is returned unmodified |
| `HuaweiCloud.WrapperProvider.Timeout` | pkg/core/certifier/challengers/dns01/huaweicloud/huaweicloud.go:38-45 | the provider's own pair when it has the timeout capability, `(0, 0)` otherwise |
| `HuaweiCloud.NewChallenger` | pkg/core/certifier/challengers/dns01/huaweicloud/huaweicloud.go:47-76 | a nil configuration fails with no challenger and no lego call; otherwise lego is called once with the translated configuration, and its error is returned unchanged or exactly its new provider is wrapped |
| `HuaweiCloud.ChallengeCycle` | pkg/core/certifier/challengers/dns01/huaweicloud/huaweicloud.go:47-76 | building with region `""` makes lego see `"cn-north-1"`; `Present` and then `CleanUp` of `"foo.bar."` reach the provider as `"foo.bar"` with `"tok"` and `"auth"` unchanged |

## Left out

- Lego's Huawei Cloud package is not part of this model. That covers its default values,
  what `NewDNSProviderConfig` validates and the Huawei Cloud DNS API calls. Their results
  are arbitrary in the model.
- `pollingInterval` and `httpTimeout` stand for the fields of lego's configuration that the
  adapter never sets. They exist only so that "every other default is kept" can be stated.
- The TXT record name and value of section 8.4 of RFC 8555 are computed by lego and the
  ACME engine, not by this file.
- Network I/O, propagation waiting and retries are outside this file. They belong to the
  ACME engine.
- `HuaweiCloud.WrapperProvider.Timeout`: in Go, the provider's `Timeout()` is called on
  every request. Here its pair is a constant fixed when the provider is built, so a provider
  whose answer changes over time is not modelled.
- `hwc.NewDefaultConfig()` is an input to `NewChallenger`. The model does not capture that
  Go does not call it when the configuration is nil.
- JSON tags and the deserialisation of `ChallengerConfig` are left out. The configuration
  arrives as a value.
- Domains that are not valid UTF-8 are not modelled: a Go `string` may hold any bytes, a
  `seq<char>` may not. On such a domain `strings.TrimSuffix` still removes only a final `0x2E` byte.
- Go's `int` is modelled as 64-bit. On a 32-bit build `int32(config.DnsTTL)` is exact and the
  timeout product cannot overflow, so the wrap-around lemmas describe inputs that cannot occur.
- Go's `time.Duration` is modelled only as a 64-bit nanosecond count. The file introduces
  no concurrency, and none is modelled.
