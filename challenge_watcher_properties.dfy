/**
 * Properties of the challenge watcher's decision chain (`Decide`, `StepRoot`)
 * and of a whole poll (`Run`).
 */
module WatcherProperties {
  import opened Wrappers
  import opened TransferRoots
  import opened Watchers

  /** The root id the watcher computes for candidate `c`. */
  function IdOf(c: Candidate, env: Env): RootId
  {
    env.rootIdOf(c.transferRootHash, c.bondTotalAmount)
  }

  /** The bridge's commit-lookup answer for candidate `c`'s record. */
  function CommitAnswer(st: PollState, c: Candidate, env: Env): Reply<nat>
    requires c.transferRootHash in st.records
  {
    env.bridge.transferRootCommittedAt(st.records[c.transferRootHash].destinationChainId, IdOf(c, env))
  }

  // ---------------------------------------------------------------------
  // One root

  /**
   * The decision depends on the bridge only through its answers at the one
   * root id `getTransferRootId(hash, amount)`: for the commit lookup (on the
   * record's destination chain) and for the bond lookup.
   */
  lemma StepRootUsesOneRootId(st: PollState, c: Candidate, env: Env, other: L1Bridge)
    requires c.transferRootHash in st.records ==>
      other.transferRootCommittedAt(st.records[c.transferRootHash].destinationChainId, IdOf(c, env)) == CommitAnswer(st, c, env)
    requires other.transferBond(IdOf(c, env)) == env.bridge.transferBond(IdOf(c, env))
    requires other.challengePeriod == env.bridge.challengePeriod
    ensures StepRoot(st, c, env.(bridge := other)) == StepRoot(st, c, env)
  {
  }

  /**
   * Confirmed on L1: only `challengeExpired := true` is written, nothing is
   * sent, and neither the bond nor the challenge period is read (any bridge
   * with the same commit answer gives the same step).
   */
  lemma StepConfirmed(st: PollState, c: Candidate, env: Env, other: L1Bridge)
    requires c.transferRootHash in st.records
    requires CommitAnswer(st, c, env).Answered? && CommitAnswer(st, c, env).value != 0
    requires other.transferRootCommittedAt == env.bridge.transferRootCommittedAt
    ensures StepRoot(st, c, env) == Success(PollState(
              st.records[c.transferRootHash := st.records[c.transferRootHash].(challengeExpired := true)], st.log))
    ensures StepRoot(st, c, env.(bridge := other)) == StepRoot(st, c, env)
  {
    StepRootDecided(st, c, env, ConfirmedOnL1);
  }

  /**
   * Unconfirmed, and the bond's challenge has started: only
   * `challenged := true` is written, nothing is sent, and the challenge
   * period is not read.
   */
  lemma StepAlreadyChallenged(st: PollState, c: Candidate, env: Env, otherPeriod: Reply<nat>)
    requires c.transferRootHash in st.records
    requires CommitAnswer(st, c, env) == Answered(0)
    requires env.bridge.transferBond(IdOf(c, env)).Answered?
    requires env.bridge.transferBond(IdOf(c, env)).value.challengeStartTime > 0
    ensures StepRoot(st, c, env) == Success(PollState(
              st.records[c.transferRootHash := st.records[c.transferRootHash].(challenged := true)], st.log))
    ensures StepRoot(st, c, env.(bridge := env.bridge.(challengePeriod := otherPeriod))) == StepRoot(st, c, env)
  {
    StepRootDecided(st, c, env, AlreadyChallenged);
  }

  /**
   * Unconfirmed and unchallenged: `challengeExpired := true` is written
   * exactly when `bondedAt*1000 + challengePeriod*1000 < now`.
   */
  lemma StepDeadline(st: PollState, c: Candidate, env: Env)
    requires c.transferRootHash in st.records
    requires CommitAnswer(st, c, env) == Answered(0)
    requires env.bridge.transferBond(IdOf(c, env)) == Answered(Bond(0))
    requires env.bridge.challengePeriod.Answered?
    ensures StepRoot(st, c, env).Success?
    ensures var rec := st.records[c.transferRootHash];
            (StepRoot(st, c, env).value.records[c.transferRootHash].challengeExpired
             <==> (|| rec.challengeExpired
                   || (rec.bondedAt.Some?
                       && rec.bondedAt.value * 1000 + env.bridge.challengePeriod.value * 1000 < env.now)))
    ensures PeriodOver(st.records[c.transferRootHash].bondedAt, env.bridge.challengePeriod.value, env.now) ==>
              StepRoot(st, c, env) == Success(PollState(
                st.records[c.transferRootHash := st.records[c.transferRootHash].(challengeExpired := true)], st.log))
  {
    if PeriodOver(st.records[c.transferRootHash].bondedAt, env.bridge.challengePeriod.value, env.now) {
      StepRootDecided(st, c, env, ChallengePeriodOver);
    }
  }

  /**
   * A warning is sent only for an unconfirmed root whose bond has not been
   * challenged, within its challenge window, in active mode.
   */
  lemma WarningOnlyWhenActionable(st: PollState, c: Candidate, env: Env)
    requires StepRoot(st, c, env).Success? && StepRoot(st, c, env).value.log != st.log
    ensures c.transferRootHash in st.records
    ensures CommitAnswer(st, c, env) == Answered(0)
    ensures env.bridge.transferBond(IdOf(c, env)) == Answered(Bond(0))
    ensures env.bridge.challengePeriod.Answered?
    ensures !PeriodOver(st.records[c.transferRootHash].bondedAt, env.bridge.challengePeriod.value, env.now)
    ensures !env.dryOrPause
  {
    var d := Decide(Lookup(st.records, c.transferRootHash), IdOf(c, env), env.bridge, env.now, env.dryOrPause).value;
    StepRootDecided(st, c, env, d);
  }

  /** At the deadline itself the root is still actionable: it is not expired. */
  lemma DeadlineIsExclusive(rec: TransferRoot, id: RootId, bridge: L1Bridge, now: nat, dryOrPause: bool)
    requires bridge.transferRootCommittedAt(rec.destinationChainId, id) == Answered(0)
    requires bridge.transferBond(id) == Answered(Bond(0))
    requires bridge.challengePeriod.Answered?
    requires rec.bondedAt.Some? && rec.bondedAt.value * 1000 + bridge.challengePeriod.value * 1000 == now
    ensures Decide(Some(rec), id, bridge, now, dryOrPause)
            == Success(if dryOrPause then SkippedDryOrPause else ShouldChallenge)
  {
  }

  /**
   * The actionable case: in dry or pause mode nothing is written and nothing
   * is sent; otherwise exactly one warning is sent and `challenged := true`
   * is written.
   */
  lemma StepActionable(st: PollState, c: Candidate, env: Env)
    requires c.transferRootHash in st.records
    requires CommitAnswer(st, c, env) == Answered(0)
    requires env.bridge.transferBond(IdOf(c, env)) == Answered(Bond(0))
    requires env.bridge.challengePeriod.Answered?
    requires !PeriodOver(st.records[c.transferRootHash].bondedAt, env.bridge.challengePeriod.value, env.now)
    ensures env.dryOrPause ==> StepRoot(st, c, env) == Success(st)
    ensures !env.dryOrPause ==> StepRoot(st, c, env) == Success(PollState(
              st.records[c.transferRootHash := st.records[c.transferRootHash].(challenged := true)],
              st.log + [Warning(c.transferRootHash, c.bondTotalAmount)]))
  {
    StepRootDecided(st, c, env, if env.dryOrPause then SkippedDryOrPause else ShouldChallenge);
  }

  /**
   * Every step makes at most one store update: it raises one flag of the
   * candidate's record, lowers none, keeps every other record, and sends at
   * most one warning, about that candidate. A step that throws changes nothing.
   */
  lemma StepWritesAtMostOneFlag(st: PollState, c: Candidate, env: Env)
    ensures StepRoot(st, c, env).Success? ==>
      var st' := StepRoot(st, c, env).value;
      var h := c.transferRootHash;
      && h in st.records
      && st'.records.Keys == st.records.Keys
      && (forall k :: k in st.records && k != h ==> st'.records[k] == st.records[k])
      && (|| st'.records[h] == st.records[h]
          || st'.records[h] == st.records[h].(challenged := true)
          || st'.records[h] == st.records[h].(challengeExpired := true))
      && Raised(st.records[h], st'.records[h])
      && (st'.log == st.log || st'.log == st.log + [Warning(h, c.bondTotalAmount)])
      && (st'.log != st.log ==> st'.records[h].challenged)
  {
    if StepRoot(st, c, env).Success? {
      var d := Decide(Lookup(st.records, c.transferRootHash), IdOf(c, env), env.bridge, env.now, env.dryOrPause).value;
      StepRootDecided(st, c, env, d);
      match FlagWritten(d)
      case None =>
      case Some(f) => SetFlagRaisesOnlyThatFlag(st.records[c.transferRootHash], f);
    }
  }

  /**
   * Re-running the step on the state it produced, with the same on-chain
   * facts, reaches the same decision and leaves the records as they are:
   * the flags do not oscillate.
   */
  lemma StepIsIdempotent(st: PollState, c: Candidate, env: Env)
    requires StepRoot(st, c, env).Success?
    ensures var st' := StepRoot(st, c, env).value;
            && StepRoot(st', c, env).Success?
            && StepRoot(st', c, env).value.records == st'.records
  {
    var h := c.transferRootHash;
    var st' := StepRoot(st, c, env).value;
    var d := Decide(Lookup(st.records, h), IdOf(c, env), env.bridge, env.now, env.dryOrPause).value;
    StepRootDecided(st, c, env, d);
    assert Decide(Lookup(st'.records, h), IdOf(c, env), env.bridge, env.now, env.dryOrPause) == Success(d) by {
      match FlagWritten(d)
      case None =>
      case Some(f) => SetFlagRaisesOnlyThatFlag(st.records[h], f);
    }
    StepRootDecided(st', c, env, d);
  }

  /** After any decision but the dry/pause skip, the root is no longer challengeable. */
  lemma DecidedRootLeavesTheCandidates(st: PollState, c: Candidate, env: Env)
    requires StepRoot(st, c, env).Success?
    requires StepRoot(st, c, env).value != st
    ensures !IsChallengeable(StepRoot(st, c, env).value.records[c.transferRootHash])
  {
    var d := Decide(Lookup(st.records, c.transferRootHash), IdOf(c, env), env.bridge, env.now, env.dryOrPause).value;
    StepRootDecided(st, c, env, d);
  }

  // ---------------------------------------------------------------------
  // A whole poll

  /**
   * A poll over `a + b` is a poll over `a` followed, if nothing threw, by a
   * poll over `b`: the candidates are processed one by one, in order.
   */
  lemma {:induction false} RunAppend(st: PollState, a: seq<Candidate>, b: seq<Candidate>, env: Env)
    ensures Run(st, a + b, env)
            == (var ra := Run(st, a, env); if ra.failure.Some? then ra else Run(ra.state, b, env))
    decreases |a|
  {
    if a == [] {
      assert a + b == b;
    } else {
      assert (a + b)[0] == a[0] && (a + b)[1..] == a[1..] + b;
      match StepRoot(st, a[0], env)
      case Failure(e) =>
      case Success(st') => RunAppend(st', a[1..], b, env);
    }
  }

  /** The first candidate that throws ends the poll: none after it is touched. */
  lemma RunStopsAtFirstFailure(st: PollState, a: seq<Candidate>, c: Candidate, b: seq<Candidate>, env: Env)
    requires Run(st, a, env).failure.None?
    requires StepRoot(Run(st, a, env).state, c, env).Failure?
    ensures Run(st, a + [c] + b, env)
            == PollResult(Run(st, a, env).state, Some(StepRoot(Run(st, a, env).state, c, env).error))
  {
    assert a + [c] + b == a + ([c] + b);
    RunAppend(st, a, [c] + b, env);
    assert ([c] + b)[0] == c;
  }

  /** A poll keeps every record and lowers no flag. */
  lemma {:induction false} RunRaisesOnly(st: PollState, cs: seq<Candidate>, env: Env)
    ensures Run(st, cs, env).state.records.Keys == st.records.Keys
    ensures forall k :: k in st.records ==> Raised(st.records[k], Run(st, cs, env).state.records[k])
    decreases |cs|
  {
    if cs != [] {
      StepWritesAtMostOneFlag(st, cs[0], env);
      match StepRoot(st, cs[0], env)
      case Failure(e) =>
      case Success(st') => RunRaisesOnly(st', cs[1..], env);
    }
  }

  /** A poll leaves every record that is not a candidate of it as it was. */
  lemma {:induction false} RunTouchesOnlyCandidates(st: PollState, cs: seq<Candidate>, env: Env, k: Hash)
    requires k in st.records && k !in HashesOf(cs)
    ensures k in Run(st, cs, env).state.records
    ensures Run(st, cs, env).state.records[k] == st.records[k]
    decreases |cs|
  {
    if cs != [] {
      StepWritesAtMostOneFlag(st, cs[0], env);
      assert HashesOf(cs)[0] == cs[0].transferRootHash;
      match StepRoot(st, cs[0], env)
      case Failure(e) =>
      case Success(st') =>
        assert HashesOf(cs[1..]) == HashesOf(cs)[1..];
        RunTouchesOnlyCandidates(st', cs[1..], env, k);
    }
  }

  /**
   * A poll only appends to the notifier's log, every warning it sends names
   * one of its candidates with that candidate's amount, and in dry or pause
   * mode it sends none.
   */
  lemma {:induction false} RunOnlyWarnsAboutCandidates(st: PollState, cs: seq<Candidate>, env: Env)
    ensures |st.log| <= |Run(st, cs, env).state.log|
    ensures Run(st, cs, env).state.log[..|st.log|] == st.log
    ensures forall w :: w in Run(st, cs, env).state.log[|st.log|..] ==> Candidate(w.transferRootHash, w.totalAmount) in cs
    ensures env.dryOrPause ==> Run(st, cs, env).state.log == st.log
    decreases |cs|
  {
    if cs != [] {
      StepWritesAtMostOneFlag(st, cs[0], env);
      match StepRoot(st, cs[0], env)
      case Failure(e) =>
      case Success(st') =>
        RunOnlyWarnsAboutCandidates(st', cs[1..], env);
        var log := Run(st, cs, env).state.log;
        assert log == Run(st', cs[1..], env).state.log;
        assert env.dryOrPause ==> st'.log == st.log by {
          var d := Decide(Lookup(st.records, cs[0].transferRootHash), IdOf(cs[0], env), env.bridge, env.now, env.dryOrPause).value;
          StepRootDecided(st, cs[0], env, d);
        }
        forall w | w in log[|st.log|..]
          ensures Candidate(w.transferRootHash, w.totalAmount) in cs
        {
          if w in log[|st'.log|..] {
            assert Candidate(w.transferRootHash, w.totalAmount) in cs[1..];
          } else {
            assert |st'.log| != |st.log|;
            assert log[|st.log|..] == st'.log[|st.log|..] + log[|st'.log|..];
            assert w == Warning(cs[0].transferRootHash, cs[0].bondTotalAmount);
          }
        }
    }
  }

  // ---------------------------------------------------------------------
  // Scenarios (bondedAt in seconds, now in milliseconds)

  /** Bonded at t0 with a one-day period, polled at t0 + 86500 s, never confirmed or challenged: expired. */
  lemma ScenarioWindowLapsed(rec: TransferRoot, id: RootId, bridge: L1Bridge, t0: nat, dryOrPause: bool)
    requires rec.bondedAt == Some(t0)
    requires bridge.transferRootCommittedAt(rec.destinationChainId, id) == Answered(0)
    requires bridge.transferBond(id) == Answered(Bond(0))
    requires bridge.challengePeriod == Answered(86400)
    ensures Decide(Some(rec), id, bridge, (t0 + 86500) * 1000, dryOrPause) == Success(ChallengePeriodOver)
  {
  }

  /** Polled at t0 + 100 s with a commit timestamp on L1: expired, whatever the bond says. */
  lemma ScenarioConfirmedEarly(rec: TransferRoot, id: RootId, bridge: L1Bridge, t0: nat, dryOrPause: bool)
    requires rec.bondedAt == Some(t0)
    requires bridge.transferRootCommittedAt(rec.destinationChainId, id).Answered?
    requires bridge.transferRootCommittedAt(rec.destinationChainId, id).value > 0
    ensures Decide(Some(rec), id, bridge, (t0 + 100) * 1000, dryOrPause) == Success(ConfirmedOnL1)
  {
  }

  /** Polled at t0 + 100 s, unconfirmed, unchallenged: warn in active mode, skip in dry or pause mode. */
  lemma ScenarioWithinWindow(rec: TransferRoot, id: RootId, bridge: L1Bridge, t0: nat, dryOrPause: bool)
    requires rec.bondedAt == Some(t0)
    requires bridge.transferRootCommittedAt(rec.destinationChainId, id) == Answered(0)
    requires bridge.transferBond(id) == Answered(Bond(0))
    requires bridge.challengePeriod == Answered(86400)
    ensures Decide(Some(rec), id, bridge, (t0 + 100) * 1000, dryOrPause)
            == Success(if dryOrPause then SkippedDryOrPause else ShouldChallenge)
  {
  }
}
