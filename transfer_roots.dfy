/**
 * The watcher's persisted TransferRoot records (`db.transferRoots`): a store
 * keyed by transfer-root hash, with the "challengeable roots" query that
 * the challenge watcher polls and the per-record `update` it calls.
 */
module TransferRoots {
  import opened Wrappers

  type Hash = string

  /** One persisted record. Only the fields the challenge watcher reads or writes. */
  datatype TransferRoot = TransferRoot(
    transferRootHash: Hash,
    destinationChainId: nat,
    bondedAt: Option<nat>,          // seconds; absent until a bond is seen
    bondTotalAmount: Option<nat>,
    committed: bool,
    challenged: bool,
    challengeExpired: bool,
    confirmed: bool,
    settled: bool)

  /** The two flags the challenge watcher ever writes. */
  datatype Flag = Challenged | ChallengeExpired

  /** What `update(hash, { flag: true })` merges into a record. */
  function SetFlag(r: TransferRoot, f: Flag): TransferRoot
  {
    match f
    case Challenged => r.(challenged := true)
    case ChallengeExpired => r.(challengeExpired := true)
  }

  /** `b` is `a` with some flags raised: no identifying field changes, no flag is lowered. */
  predicate Raised(a: TransferRoot, b: TransferRoot)
  {
    && a.transferRootHash == b.transferRootHash
    && a.destinationChainId == b.destinationChainId
    && a.bondedAt == b.bondedAt
    && a.bondTotalAmount == b.bondTotalAmount
    && (a.committed ==> b.committed)
    && (a.challenged ==> b.challenged)
    && (a.challengeExpired ==> b.challengeExpired)
    && (a.confirmed ==> b.confirmed)
    && (a.settled ==> b.settled)
  }

  lemma SetFlagRaisesOnlyThatFlag(r: TransferRoot, f: Flag)
    ensures Raised(r, SetFlag(r, f))
    ensures f == Challenged ==> SetFlag(r, f) == r.(challenged := true)
    ensures f == ChallengeExpired ==> SetFlag(r, f) == r.(challengeExpired := true)
  {
  }

  /** A record the store hands out as a challenge candidate: bonded and not yet decided. */
  predicate IsChallengeable(r: TransferRoot)
  {
    r.bondedAt.Some? && r.bondTotalAmount.Some? && !r.challenged && !r.challengeExpired && !r.confirmed
  }

  /** One item of the candidate list, with the two fields the watcher passes on. */
  datatype Candidate = Candidate(transferRootHash: Hash, bondTotalAmount: nat)

  function HashesOf(cs: seq<Candidate>): (hs: seq<Hash>)
    ensures |hs| == |cs|
    ensures forall i :: 0 <= i < |cs| ==> hs[i] == cs[i].transferRootHash
  {
    if cs == [] then [] else [cs[0].transferRootHash] + HashesOf(cs[1..])
  }

  /** `xs` is `ys` with some elements left out: it keeps `ys`'s order. */
  predicate IsSubsequence<T(==)>(xs: seq<T>, ys: seq<T>)
    decreases |ys|
  {
    || xs == []
    || (ys != [] && ((xs[0] == ys[0] && IsSubsequence(xs[1..], ys[1..])) || IsSubsequence(xs, ys[1..])))
  }

  /**
   * The challengeable records among `order`, in that order, as candidates.
   */
  function Challengeable(order: seq<Hash>, records: map<Hash, TransferRoot>): (cs: seq<Candidate>)
    ensures |cs| <= |order|
    ensures forall c :: c in cs ==>
              && c.transferRootHash in order
              && c.transferRootHash in records
              && IsChallengeable(records[c.transferRootHash])
              && c.bondTotalAmount == records[c.transferRootHash].bondTotalAmount.value
    ensures forall h :: h in order && h in records && IsChallengeable(records[h]) ==> h in HashesOf(cs)
    ensures IsSubsequence(HashesOf(cs), order)
  {
    if order == [] then []
    else
      var h := order[0];
      var rest := Challengeable(order[1..], records);
      if h in records && IsChallengeable(records[h])
      then [Candidate(h, records[h].bondTotalAmount.value)] + rest
      else rest
  }

  class TransferRootStore {
    var records: map<Hash, TransferRoot>
    /** Insertion order of the records' hashes. */
    var order: seq<Hash>

    constructor (records: map<Hash, TransferRoot>, order: seq<Hash>)
      ensures this.records == records && this.order == order
    {
      this.records := records;
      this.order := order;
    }

    /** `getChallengeableTransferRoots`. */
    function ChallengeableTransferRoots(): (cs: seq<Candidate>)
      reads this
      ensures forall c :: c in cs ==> c.transferRootHash in records && IsChallengeable(records[c.transferRootHash])
    {
      Challengeable(order, records)
    }

    /** `getByTransferRootHash`: None stands for the lookup failing. */
    method GetByTransferRootHash(h: Hash) returns (r: Option<TransferRoot>)
      ensures r.Some? <==> h in records
      ensures r.Some? ==> r.value == records[h]
    {
      if h in records {
        r := Some(records[h]);
      } else {
        r := None;
      }
    }

    /** `update(h, { flag: true })`: merges one raised flag into an existing record. */
    method Update(h: Hash, f: Flag)
      requires h in records
      modifies this
      ensures records == old(records)[h := SetFlag(old(records)[h], f)]
      ensures order == old(order)
    {
      records := records[h := SetFlag(records[h], f)];
    }
  }
}
