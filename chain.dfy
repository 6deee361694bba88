/**
 * Chain identity in the SDK: a `Chain` built from a chain or network name
 * carries a canonical slug (trimmed, lower-cased, with every L1 network name
 * folded into `ethereum`) and an `isL1` flag; `newChain` and `fromSlug`
 * resolve aliases and look the chain up in the network metadata table.
 */
module Chains {
  import opened Wrappers
  import opened JsStrings

  // NetworkSlug values
  const Mainnet := "mainnet"
  const Staging := "staging"
  const Goerli := "goerli"
  const Kovan := "kovan"
  // ChainSlug values
  const Ethereum := "ethereum"
  const Gnosis := "gnosis"
  /** The slug Gnosis Chain had before its rebrand. */
  const Xdai := "xdai"

  /** An entry of `metadata.networks`. */
  datatype NetworkMeta = NetworkMeta(name: string, chainId: int, nativeTokenSymbol: string)

  /** `metadata.networks`, keyed by slug. */
  type Networks = map<string, NetworkMeta>

  /** A connection handle, assigned but never inspected here. */
  datatype Provider = Provider(connectionUrl: string)

  datatype ChainError =
    | UnsupportedChain(chain: string)        // `newChain`'s `unsupported chain "…"`
    | MissingNetworkMetadata(slug: string)   // the constructor's metadata lookup found nothing

  /** The slugs the constructor folds into `ethereum`, marking the chain as L1. */
  predicate IsL1Slug(slug: string)
  {
    slug == Kovan || slug == Goerli || slug == Mainnet || slug == Staging || slug == Ethereum
  }

  datatype Identity = Identity(slug: string, isL1: bool)

  /** The slug and `isL1` flag the constructor derives from a name. */
  function Normalize(name: string): (id: Identity)
    ensures id.isL1 <==> id.slug == Ethereum
  {
    var slug := ToLowerCase(Trim(name));
    if IsL1Slug(slug) then Identity(Ethereum, true) else Identity(slug, false)
  }

  /** A chain id is assigned only when it is truthy: present and not 0. */
  function SuppliedChainId(chainId: Option<int>): Option<int>
  {
    if chainId.Some? && chainId.value != 0 then chainId else None
  }

  class Chain {
    /** None while unassigned. */
    var chainId: Option<int>
    var name: string
    var slug: string
    var provider: Option<Provider>
    var isL1: bool
    var nativeTokenSymbol: string

    /**
     * `new Chain(name, chainId, provider)`. The source reads
     * `metadata.networks[this.slug].nativeTokenSymbol` last, which throws when
     * the slug has no entry; `NewChainObject` models that failure.
     */
    constructor (name: string, chainId: Option<int>, provider: Option<Provider>, networks: Networks)
      requires Normalize(name).slug in networks
      ensures this.name == name
      ensures Identity(slug, isL1) == Normalize(name)
      ensures this.chainId == SuppliedChainId(chainId)
      ensures this.provider == provider
      ensures nativeTokenSymbol == networks[slug].nativeTokenSymbol
    {
      // field initialisers
      this.chainId := None;
      this.name := "";
      this.slug := "";
      this.provider := None;
      this.isL1 := false;
      this.nativeTokenSymbol := "";
      new;
      this.name := name;
      this.slug := ToLowerCase(Trim(name));
      if IsL1Slug(this.slug) {
        this.isL1 := true;
        this.slug := Ethereum;
      }
      if chainId.Some? && chainId.value != 0 {
        this.chainId := chainId;
      }
      if provider.Some? {
        this.provider := provider;
      }
      this.nativeTokenSymbol := networks[this.slug].nativeTokenSymbol;
    }

    /** `equals`: slug equality. */
    predicate Equals(other: Chain)
      reads this, other
      ensures other == this ==> Equals(other)
    {
      slug == other.slug
    }
  }

  /** `new Chain(...)` as an expression that may throw. */
  method NewChainObject(name: string, chainId: Option<int>, provider: Option<Provider>, networks: Networks)
    returns (r: Result<Chain, ChainError>)
    ensures r.Failure? <==> Normalize(name).slug !in networks
    ensures r.Failure? ==> r.error == MissingNetworkMetadata(Normalize(name).slug)
    ensures r.Success? ==>
      && fresh(r.value)
      && r.value.name == name
      && Identity(r.value.slug, r.value.isL1) == Normalize(name)
      && r.value.chainId == SuppliedChainId(chainId)
      && r.value.provider == provider
      && r.value.nativeTokenSymbol == networks[r.value.slug].nativeTokenSymbol
  {
    if Normalize(name).slug !in networks {
      return Failure(MissingNetworkMetadata(Normalize(name).slug));
    }
    var c := new Chain(name, chainId, provider, networks);
    r := Success(c);
  }

  /** The network names `newChain` maps to `ethereum` before the lookup. */
  function ResolveNetworkAlias(chain: string): string
  {
    if chain == Mainnet || chain == Staging || chain == Goerli || chain == Kovan then Ethereum else chain
  }

  /** The identity `newChain(chain)` ends up with, or why it throws. */
  function NewChainIdentity(chain: string, networks: Networks): (r: Result<Identity, ChainError>)
    ensures r == Failure(UnsupportedChain(ResolveNetworkAlias(chain))) <==> ResolveNetworkAlias(chain) !in networks
    ensures r.Success? ==> ResolveNetworkAlias(chain) in networks && r.value.slug in networks
  {
    var key := ResolveNetworkAlias(chain);
    if key !in networks then Failure(UnsupportedChain(key))
    else
      var id := Normalize(networks[key].name);
      if id.slug !in networks then Failure(MissingNetworkMetadata(id.slug)) else Success(id)
  }

  /** `fromSlug`'s rename of the pre-rebrand slug. */
  function RebrandSlug(slug: string): string
  {
    if slug == Xdai then Gnosis else slug
  }

  function FromSlugIdentity(slug: string, networks: Networks): Result<Identity, ChainError>
  {
    NewChainIdentity(RebrandSlug(slug), networks)
  }

  /** The identity a constructed chain carries, or the error. */
  function IdentityOf(r: Result<Chain, ChainError>): Result<Identity, ChainError>
    reads if r.Success? then {r.value} else {}
  {
    match r
    case Success(c) => Success(Identity(c.slug, c.isL1))
    case Failure(e) => Failure(e)
  }

  /** `newChain(chain, chainId)`: built from the metadata entry's name, not from `chain`. */
  method NewChain(chain: string, chainId: Option<int>, networks: Networks) returns (r: Result<Chain, ChainError>)
    ensures IdentityOf(r) == NewChainIdentity(chain, networks)
    ensures r.Success? ==>
      && fresh(r.value)
      && r.value.name == networks[ResolveNetworkAlias(chain)].name
      && r.value.chainId == SuppliedChainId(chainId)
      && r.value.provider.None?
      && r.value.nativeTokenSymbol == networks[r.value.slug].nativeTokenSymbol
  {
    var key := chain;
    if key == Mainnet || key == Staging || key == Goerli || key == Kovan {
      key := Ethereum;
    }
    if key !in networks {
      return Failure(UnsupportedChain(key));
    }
    r := NewChainObject(networks[key].name, chainId, None, networks);
  }

  /** `Chain.fromSlug(slug)`. */
  method FromSlug(slug: string, networks: Networks) returns (r: Result<Chain, ChainError>)
    ensures IdentityOf(r) == FromSlugIdentity(slug, networks)
    ensures r.Success? ==>
      && fresh(r.value)
      && r.value.name == networks[ResolveNetworkAlias(RebrandSlug(slug))].name
      && r.value.chainId.None?
      && r.value.provider.None?
      && r.value.nativeTokenSymbol == networks[r.value.slug].nativeTokenSymbol
  {
    var s := slug;
    if s == Xdai {
      s := Gnosis;
    }
    r := NewChain(s, None, networks);
  }
}
