/** Properties of chain normalisation, `equals`, `newChain` and `fromSlug`. */
module ChainProperties {
  import opened Wrappers
  import opened JsStrings
  import opened Chains

  /**
   * The slug is `name.trim().toLowerCase()`, except that kovan, goerli,
   * mainnet and staging become `ethereum`; `isL1` holds exactly for those
   * four and `ethereum`.
   */
  lemma NormalizeSlug(name: string)
    ensures var tl := ToLowerCase(Trim(name));
            && (Normalize(name).isL1 <==> IsL1Slug(tl))
            && (IsL1Slug(tl) ==> Normalize(name).slug == Ethereum)
            && (!IsL1Slug(tl) ==> Normalize(name).slug == tl)
  {
  }

  /** A slug has no whitespace at either end and no upper-case ASCII letter. */
  lemma SlugIsCanonical(name: string)
    ensures var s := Normalize(name).slug;
            && (s != [] ==> !IsWhitespace(s[0]) && !IsWhitespace(s[|s| - 1]))
            && (forall i :: 0 <= i < |s| ==> !('A' <= s[i] <= 'Z'))
  {
    if !IsL1Slug(ToLowerCase(Trim(name))) {
      TrimmedLowerIsCanonical(Trim(name));
    }
  }

  /** Lower-casing a trimmed string keeps its ends free of whitespace. */
  lemma TrimmedLowerIsCanonical(t: string)
    requires t != [] ==> !IsWhitespace(t[0]) && !IsWhitespace(t[|t| - 1])
    ensures var tl := ToLowerCase(t);
            && (tl != [] ==> !IsWhitespace(tl[0]) && !IsWhitespace(tl[|tl| - 1]))
            && (forall i :: 0 <= i < |tl| ==> !('A' <= tl[i] <= 'Z'))
  {
    var tl := ToLowerCase(t);
    if t != [] {
      LowerCharKeepsWhitespace(t[0]);
      LowerCharKeepsWhitespace(t[|t| - 1]);
    }
    forall i | 0 <= i < |tl|
      ensures !('A' <= tl[i] <= 'Z')
    {
      assert tl[i] == LowerChar(t[i]);
    }
  }

  /** Constructing a chain from an existing chain's slug gives the same slug and `isL1`. */
  lemma NormalizeIdempotent(name: string)
    ensures Normalize(Normalize(name).slug) == Normalize(name)
  {
    var tl := ToLowerCase(Trim(name));
    if IsL1Slug(tl) {
      TrimOfTrimmed(Ethereum);
      assert ToLowerCase(Ethereum) == Ethereum;
    } else {
      TrimLowerIdempotent(name);
    }
  }

  /** `equals` is slug equality, so it is an equivalence relation. */
  lemma EqualsIsEquivalence(a: Chain, b: Chain, c: Chain)
    ensures a.Equals(b) <==> a.slug == b.slug
    ensures a.Equals(a)
    ensures a.Equals(b) ==> b.Equals(a)
    ensures a.Equals(b) && b.Equals(c) ==> a.Equals(c)
  {
  }

  /** `fromSlug('xdai')` and `fromSlug('gnosis')` give the same chain. */
  lemma FromSlugXdaiIsGnosis(networks: Networks)
    ensures FromSlugIdentity(Xdai, networks) == FromSlugIdentity(Gnosis, networks)
  {
  }

  /** `newChain` treats the four L1 network names as `ethereum`. */
  lemma NewChainNetworkAliases(chain: string, networks: Networks)
    requires chain == Mainnet || chain == Staging || chain == Goerli || chain == Kovan
    ensures NewChainIdentity(chain, networks) == NewChainIdentity(Ethereum, networks)
  {
  }

  /**
   * `newChain` looks its argument up as given, without trimming or
   * lower-casing it: the key is the argument itself or `ethereum`.
   */
  lemma NewChainLooksUpVerbatim(chain: string, networks: Networks)
    ensures ResolveNetworkAlias(chain) == chain || ResolveNetworkAlias(chain) == Ethereum
  {
  }

  /**
   * A chain `newChain` builds takes its identity from the metadata entry's
   * name, and that identity is stable under re-normalisation.
   */
  lemma NewChainFromMetadataName(chain: string, networks: Networks)
    requires NewChainIdentity(chain, networks).Success?
    ensures ResolveNetworkAlias(chain) in networks
    ensures NewChainIdentity(chain, networks).value == Normalize(networks[ResolveNetworkAlias(chain)].name)
    ensures NewChainIdentity(chain, networks).value.slug in networks
    ensures Normalize(NewChainIdentity(chain, networks).value.slug) == NewChainIdentity(chain, networks).value
  {
    NormalizeIdempotent(networks[ResolveNetworkAlias(chain)].name);
  }

  /** A slug is never one of the four L1 network names. */
  lemma SlugNotNetworkName(name: string)
    ensures var s := Normalize(name).slug;
            s != Mainnet && s != Staging && s != Goerli && s != Kovan
  {
  }
}
