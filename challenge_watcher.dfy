/**
 * The challenge watcher of the bridge node: on each poll of an L1 watcher it
 * walks the challengeable transfer roots in the store's order and, for each,
 * runs a short-circuiting decision chain against the L1 bridge, writing at
 * most one raised flag into the store and possibly one warning to the
 * notifier.
 *
 * The decision chain is specified by the pure function `Decide`; one step of
 * the poll by `StepRoot`, the whole poll by `Run`. The class `ChallengeWatcher`
 * performs the same work imperatively and is proved to agree with them.
 */
module Watchers {
  import opened Wrappers
  import opened TransferRoots

  type RootId = string

  /** A bridge read either answers or throws (an RPC failure). */
  datatype Reply<+T> = Answered(value: T) | Threw

  /** The part of an on-chain bond the watcher reads. */
  datatype Bond = Bond(challengeStartTime: nat)

  /**
   * The L1 bridge reads, as total functions of their arguments.
   * `transferRootCommittedAt` answers 0 when the root is not committed on L1.
   */
  datatype L1Bridge = L1Bridge(
    transferRootCommittedAt: (nat, RootId) -> Reply<nat>,
    transferBond: RootId -> Reply<Bond>,
    challengePeriod: Reply<nat>)   // seconds

  datatype BridgeCall = GetTransferRootCommittedAt | GetTransferBond | GetChallengePeriod

  /** Why processing a root threw. */
  datatype Failure = NotFound | ChainReadError(call: BridgeCall)

  /** Which link of the decision chain matched. */
  datatype Decision =
    | ConfirmedOnL1        // committed on L1: mark challengeExpired
    | AlreadyChallenged    // the bond's challenge has started: mark challenged
    | ChallengePeriodOver  // the challenge window has lapsed: mark challengeExpired
    | SkippedDryOrPause    // actionable, but dry or pause mode: do nothing
    | ShouldChallenge      // actionable: warn, then mark challenged

  /** The warning `TransferRoot should be challenged! Root hash: …. Total amt: ….` */
  datatype Warning = Warning(transferRootHash: Hash, totalAmount: nat)

  /**
   * `bondedAt*1000 + challengePeriod*1000 < now`, with `now` in milliseconds.
   * A missing `bondedAt` makes the JavaScript product NaN, and every
   * comparison with NaN is false.
   */
  predicate PeriodOver(bondedAt: Option<nat>, challengePeriod: nat, now: nat)
    ensures PeriodOver(bondedAt, challengePeriod, now) ==> bondedAt.Some?
    // strict at the bound: up to and including the deadline the period is not over
    ensures bondedAt.Some? && now <= (bondedAt.value + challengePeriod) * 1000 ==> !PeriodOver(bondedAt, challengePeriod, now)
  {
    bondedAt.Some? && bondedAt.value * 1000 + challengePeriod * 1000 < now
  }

  /** Once the period is over it stays over as time goes on. */
  lemma PeriodOverIsMonotone(bondedAt: Option<nat>, challengePeriod: nat, now: nat, later: nat)
    requires PeriodOver(bondedAt, challengePeriod, now) && now <= later
    ensures PeriodOver(bondedAt, challengePeriod, later)
  {
  }

  /**
   * The decision for one root, given the store's record for it (None when the
   * lookup fails), the root id, the bridge, the clock and the dry/pause gate.
   */
  function Decide(rec: Option<TransferRoot>, id: RootId, bridge: L1Bridge, now: nat, dryOrPause: bool): (r: Result<Decision, Failure>)
    ensures rec.None? ==> r.Failure?
    // confirmation takes precedence over everything the bond and the period say
    ensures rec.Some? && bridge.transferRootCommittedAt(rec.value.destinationChainId, id).Answered?
            && bridge.transferRootCommittedAt(rec.value.destinationChainId, id).value != 0
            ==> r == Success(ConfirmedOnL1)
    // a challenge is decided only inside the window, in active mode, for an unconfirmed, unchallenged root
    ensures r == Success(ShouldChallenge) ==>
      && rec.Some?
      && bridge.transferRootCommittedAt(rec.value.destinationChainId, id) == Answered(0)
      && bridge.transferBond(id) == Answered(Bond(0))
      && bridge.challengePeriod.Answered?
      && !PeriodOver(rec.value.bondedAt, bridge.challengePeriod.value, now)
      && !dryOrPause
  {
    match rec
    case None => Failure(NotFound)
    case Some(root) =>
      match bridge.transferRootCommittedAt(root.destinationChainId, id)
      case Threw => Failure(ChainReadError(GetTransferRootCommittedAt))
      case Answered(committedAt) =>
        if committedAt != 0 then Success(ConfirmedOnL1)
        else
          match bridge.transferBond(id)
          case Threw => Failure(ChainReadError(GetTransferBond))
          case Answered(bond) =>
            if bond.challengeStartTime > 0 then Success(AlreadyChallenged)
            else
              match bridge.challengePeriod
              case Threw => Failure(ChainReadError(GetChallengePeriod))
              case Answered(period) =>
                if PeriodOver(root.bondedAt, period, now) then Success(ChallengePeriodOver)
                else if dryOrPause then Success(SkippedDryOrPause)
                else Success(ShouldChallenge)
  }

  /** The flag a decision writes, if any. */
  function FlagWritten(d: Decision): Option<Flag>
  {
    match d
    case ConfirmedOnL1 => Some(ChallengeExpired)
    case AlreadyChallenged => Some(Challenged)
    case ChallengePeriodOver => Some(ChallengeExpired)
    case SkippedDryOrPause => None
    case ShouldChallenge => Some(Challenged)
  }

  function Apply(records: map<Hash, TransferRoot>, h: Hash, d: Decision): map<Hash, TransferRoot>
    requires h in records
  {
    match FlagWritten(d)
    case None => records
    case Some(f) => records[h := SetFlag(records[h], f)]
  }

  /** What a poll reads and writes: the store's records and the notifier's log. */
  datatype PollState = PollState(records: map<Hash, TransferRoot>, log: seq<Warning>)

  /** The inputs that stay fixed during one poll. */
  datatype Env = Env(bridge: L1Bridge, rootIdOf: (Hash, nat) -> RootId, now: nat, dryOrPause: bool)

  function Lookup(records: map<Hash, TransferRoot>, h: Hash): (r: Option<TransferRoot>)
  {
    if h in records then Some(records[h]) else None
  }

  /** `checkChallengeableTransferRoot` as a state transformer. */
  function StepRoot(st: PollState, c: Candidate, env: Env): (r: Result<PollState, Failure>)
    ensures c.transferRootHash !in st.records ==> r == Failure(NotFound)
    ensures r.Success? ==> r.value.records.Keys == st.records.Keys
    ensures r.Success? ==> |st.log| <= |r.value.log| <= |st.log| + 1 && r.value.log[..|st.log|] == st.log
  {
    var h := c.transferRootHash;
    var id := env.rootIdOf(h, c.bondTotalAmount);
    match Decide(Lookup(st.records, h), id, env.bridge, env.now, env.dryOrPause)
    case Failure(e) => Failure(e)
    case Success(d) =>
      Success(PollState(Apply(st.records, h, d),
                        st.log + (if d == ShouldChallenge then [Warning(h, c.bondTotalAmount)] else [])))
  }

  datatype PollResult = PollResult(state: PollState, failure: Option<Failure>)

  /**
   * `checkChallengeableTransferRootFromDb`: the candidates one by one, in
   * order; the first one that throws ends the poll, leaving the state the
   * earlier ones produced.
   */
  function Run(st: PollState, cs: seq<Candidate>, env: Env): (r: PollResult)
    ensures r.state.records.Keys == st.records.Keys
    ensures |st.log| <= |r.state.log| <= |st.log| + |cs|
    decreases |cs|
  {
    if cs == [] then PollResult(st, None)
    else
      match StepRoot(st, cs[0], env)
      case Failure(e) => PollResult(st, Some(e))
      case Success(st') => Run(st', cs[1..], env)
  }

  /** `StepRoot` once `Decide` has matched `d`. */
  lemma StepRootDecided(st: PollState, c: Candidate, env: Env, d: Decision)
    requires c.transferRootHash in st.records
    requires Decide(Some(st.records[c.transferRootHash]), env.rootIdOf(c.transferRootHash, c.bondTotalAmount),
                    env.bridge, env.now, env.dryOrPause) == Success(d)
    ensures StepRoot(st, c, env) == Success(PollState(
              match FlagWritten(d)
              case None => st.records
              case Some(f) => st.records[c.transferRootHash := SetFlag(st.records[c.transferRootHash], f)],
              if d == ShouldChallenge then st.log + [Warning(c.transferRootHash, c.bondTotalAmount)] else st.log))
  {
    assert st.log + [] == st.log;
  }

  /** One candidate of `Run`: it either ends the poll or hands its state to the rest. */
  lemma RunUnfold(st: PollState, cs: seq<Candidate>, env: Env)
    requires cs != []
    ensures StepRoot(st, cs[0], env).Failure? ==> Run(st, cs, env) == PollResult(st, Some(StepRoot(st, cs[0], env).error))
    ensures StepRoot(st, cs[0], env).Success? ==> Run(st, cs, env) == Run(StepRoot(st, cs[0], env).value, cs[1..], env)
  {
  }

  class ChallengeWatcher {
    const isL1: bool
    const dryMode: bool
    /** Set from outside (the operator's pause switch); read at each decision. */
    var pauseMode: bool
    const db: TransferRootStore
    /** `getTransferRootId`. */
    const rootIdOf: (Hash, nat) -> RootId
    /** Warnings sent to the notifier, oldest first. */
    var notifications: seq<Warning>

    constructor (isL1: bool, dryMode: bool, db: TransferRootStore, rootIdOf: (Hash, nat) -> RootId)
      ensures this.isL1 == isL1 && this.dryMode == dryMode && this.db == db && this.rootIdOf == rootIdOf
      ensures !pauseMode && notifications == []
    {
      this.isL1 := isL1;
      this.dryMode := dryMode;
      this.pauseMode := false;
      this.db := db;
      this.rootIdOf := rootIdOf;
      this.notifications := [];
    }

    /** The store's records and the notifier's log, as one value. */
    function State(): PollState
      reads this, db
    {
      PollState(db.records, notifications)
    }

    function EnvFor(bridge: L1Bridge, now: nat): Env
      reads this
    {
      Env(bridge, rootIdOf, now, dryMode || pauseMode)
    }

    /** `pollHandler`: only an L1 watcher does anything. */
    method PollHandler(bridge: L1Bridge, now: nat) returns (failure: Option<Failure>)
      modifies this, db
      ensures pauseMode == old(pauseMode) && db.order == old(db.order)
      ensures !isL1 ==> failure.None? && db.records == old(db.records) && notifications == old(notifications)
      ensures isL1 ==>
        Run(old(State()), old(db.ChallengeableTransferRoots()), EnvFor(bridge, now)) == PollResult(State(), failure)
    {
      if !isL1 {
        return None;
      }
      failure := CheckChallengeableTransferRootFromDb(bridge, now);
    }

    /** `checkChallengeableTransferRootFromDb`. */
    method CheckChallengeableTransferRootFromDb(bridge: L1Bridge, now: nat) returns (failure: Option<Failure>)
      modifies this, db
      ensures pauseMode == old(pauseMode) && db.order == old(db.order)
      ensures Run(old(State()), old(db.ChallengeableTransferRoots()), EnvFor(bridge, now)) == PollResult(State(), failure)
    {
      var roots := db.ChallengeableTransferRoots();
      ghost var env := EnvFor(bridge, now);
      ghost var start := State();
      var i := 0;
      while i < |roots|
        invariant 0 <= i <= |roots|
        invariant pauseMode == old(pauseMode) && db.order == old(db.order)
        invariant env == EnvFor(bridge, now)
        invariant Run(start, roots, env) == Run(State(), roots[i..], env)
      {
        ghost var before := State();
        var r := CheckChallengeableTransferRoot(roots[i].transferRootHash, roots[i].bondTotalAmount, bridge, now);
        RunUnfold(before, roots[i..], env);
        assert roots[i..][0] == roots[i] && roots[i..][1..] == roots[i + 1..];
        if r.Failure? {
          return Some(r.error);
        }
        i := i + 1;
      }
      failure := None;
    }

    /** `checkChallengeableTransferRoot`: the decision chain with its store update. */
    method CheckChallengeableTransferRoot(transferRootHash: Hash, totalAmount: nat, bridge: L1Bridge, now: nat)
      returns (r: Result<Decision, Failure>)
      modifies this, db
      ensures pauseMode == old(pauseMode) && db.order == old(db.order)
      ensures StepRoot(old(State()), Candidate(transferRootHash, totalAmount), EnvFor(bridge, now))
              == (if r.Success? then Success(State()) else Failure(r.error))
      ensures r.Failure? ==> State() == old(State())
    {
      ghost var st := State();
      ghost var c := Candidate(transferRootHash, totalAmount);
      ghost var env := EnvFor(bridge, now);
      var transferRootId := rootIdOf(transferRootHash, totalAmount);
      var dbTransferRoot := db.GetByTransferRootHash(transferRootHash);
      if dbTransferRoot.None? {
        return Failure(NotFound);
      }
      var root := dbTransferRoot.value;
      assert Lookup(st.records, transferRootHash) == dbTransferRoot;

      var transferRootCommittedAt := bridge.transferRootCommittedAt(root.destinationChainId, transferRootId);
      if transferRootCommittedAt.Threw? {
        return Failure(ChainReadError(GetTransferRootCommittedAt));
      }
      var isRootHashConfirmed := transferRootCommittedAt.value != 0;
      if isRootHashConfirmed {
        StepRootDecided(st, c, env, ConfirmedOnL1);
        db.Update(transferRootHash, ChallengeExpired);
        return Success(ConfirmedOnL1);
      }

      var bond := bridge.transferBond(transferRootId);
      if bond.Threw? {
        return Failure(ChainReadError(GetTransferBond));
      }
      var isChallenged := bond.value.challengeStartTime > 0;
      if isChallenged {
        StepRootDecided(st, c, env, AlreadyChallenged);
        db.Update(transferRootHash, Challenged);
        return Success(AlreadyChallenged);
      }

      var challengePeriod := bridge.challengePeriod;
      if challengePeriod.Threw? {
        return Failure(ChainReadError(GetChallengePeriod));
      }
      var isChallengePeriodOver := PeriodOver(root.bondedAt, challengePeriod.value, now);
      if isChallengePeriodOver {
        StepRootDecided(st, c, env, ChallengePeriodOver);
        db.Update(transferRootHash, ChallengeExpired);
        return Success(ChallengePeriodOver);
      }

      if dryMode || pauseMode {
        StepRootDecided(st, c, env, SkippedDryOrPause);
        return Success(SkippedDryOrPause);
      }

      StepRootDecided(st, c, env, ShouldChallenge);
      notifications := notifications + [Warning(transferRootHash, totalAmount)];
      db.Update(transferRootHash, Challenged);
      r := Success(ShouldChallenge);
    }
  }
}
