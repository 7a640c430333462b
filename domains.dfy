/** Domain normalisation before a backend call: Go's `strings.TrimSuffix(domain, ".")`. */
module Domains {

  /** Go's `strings.HasSuffix`. */
  predicate HasSuffix(s: string, suffix: string) {
    |suffix| <= |s| && s[|s| - |suffix|..] == suffix
  }

  /** Go's `strings.TrimSuffix`: drops `suffix` once if `s` ends with it, else returns `s`. */
  function TrimSuffix(s: string, suffix: string): (r: string)
    ensures HasSuffix(s, suffix) ==> r + suffix == s
    ensures !HasSuffix(s, suffix) ==> r == s
  {
    if HasSuffix(s, suffix) then s[..|s| - |suffix|] else s
  }

  /** Trimming a suffix that was appended gives back exactly what it was appended to. */
  lemma TrimAppendedSuffix(p: string, suffix: string)
    ensures TrimSuffix(p + suffix, suffix) == p
  {
  }

  /** The domain the wrapper hands to the backend: a prefix of the given domain, shorter by
      at most one character. */
  function NormalizeDomain(domain: string): (r: string)
    ensures r <= domain && |domain| - 1 <= |r|
  {
    TrimSuffix(domain, ".")
  }

  /** Exactly one trailing dot goes when there is one; otherwise nothing changes. The result
      is a prefix of the domain and at most one character shorter. */
  lemma NormalizeDomainShape(domain: string)
    ensures |domain| > 0 && domain[|domain| - 1] == '.' ==>
      NormalizeDomain(domain) == domain[..|domain| - 1]
    ensures !(|domain| > 0 && domain[|domain| - 1] == '.') ==>
      NormalizeDomain(domain) == domain
    ensures NormalizeDomain(domain) <= domain
    ensures |domain| - 1 <= |NormalizeDomain(domain)| <= |domain|
  {
  }

  /** Adding one dot and normalising is the identity: normalisation inverts `d + "."`. */
  lemma NormalizeDottedDomain(domain: string)
    ensures NormalizeDomain(domain + ".") == domain
  {
  }

  /** A domain leaves normalisation unchanged exactly when it has no trailing dot. */
  lemma NormalizeFixedPoint(domain: string)
    ensures NormalizeDomain(domain) == domain <==> !HasSuffix(domain, ".")
  {
  }

  /** `"foo.bar."` and `"foo.bar"` reach the backend as the same domain, and more generally
      `d + "."` and `d` do exactly when `d` itself has no trailing dot. */
  lemma NormalizeIgnoresOneTrailingDot(domain: string)
    ensures NormalizeDomain(domain + ".") == NormalizeDomain(domain) <==> !HasSuffix(domain, ".")
  {
  }

  /** Normalising twice equals normalising once exactly when the domain does not end in
      two dots: the function is not idempotent in general. */
  lemma NormalizeIdempotentIff(domain: string)
    ensures NormalizeDomain(NormalizeDomain(domain)) == NormalizeDomain(domain)
        <==> !HasSuffix(domain, "..")
  {
    NormalizeDomainShape(domain);
    NormalizeDomainShape(NormalizeDomain(domain));
  }

  /** Strips every trailing dot: the idempotent alternative, Go's
      `strings.TrimRight(domain, ".")`. */
  function TrimTrailingDots(domain: string): (r: string)
    ensures r <= domain && !HasSuffix(r, ".")
    ensures forall i | |r| <= i < |domain| :: domain[i] == '.'
    decreases |domain|
  {
    if HasSuffix(domain, ".") then TrimTrailingDots(domain[..|domain| - 1]) else domain
  }

  /** Stripping every trailing dot is idempotent. */
  lemma TrimTrailingDotsIdempotent(domain: string)
    ensures TrimTrailingDots(TrimTrailingDots(domain)) == TrimTrailingDots(domain)
  {
  }

  /** The adapter's single-dot normalisation agrees with stripping every trailing dot exactly
      when the domain does not end in two dots, and never lands on a different bare name. */
  lemma NormalizeAgreesWithTrimTrailingDots(domain: string)
    ensures NormalizeDomain(domain) == TrimTrailingDots(domain) <==> !HasSuffix(domain, "..")
    ensures TrimTrailingDots(NormalizeDomain(domain)) == TrimTrailingDots(domain)
  {
    NormalizeDomainShape(domain);
    if HasSuffix(domain, "..") {
      var n := NormalizeDomain(domain);
      assert HasSuffix(n, ".");
    }
  }

  /** The cases named for the adapter, with `"a.."` showing that one trim is not idempotent. */
  lemma NormalizeExamples()
    ensures NormalizeDomain("example.com.") == "example.com"
    ensures NormalizeDomain("example.com") == "example.com"
    ensures NormalizeDomain("a..") == "a."
    ensures NormalizeDomain(NormalizeDomain("a..")) == "a"
  {
    assert "example.com." == "example.com" + ".";
    assert "a.." == "a." + ".";
    assert "a." == "a" + ".";
    NormalizeDottedDomain("example.com");
    NormalizeDottedDomain("a.");
    NormalizeDottedDomain("a");
    NormalizeFixedPoint("example.com");
  }
}
