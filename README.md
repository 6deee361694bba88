# Hop bridge node: challenge watcher and chain identity, modelled in Dafny

This project models two pieces of the Hop cross-chain bridge.

**The challenge watcher of the bridge node** (`packages/hop-node/src/watchers/ChallengeWatcher.ts`).
An L1 watcher's poll walks the store's challengeable transfer roots in order.
For each root it runs a decision chain that stops at the first match:

1. The root is committed on L1: mark `challengeExpired`.
2. Else the bond's `challengeStartTime > 0`: mark `challenged`.
3. Else the window has lapsed (`bondedAt*1000 + challengePeriod*1000 < now`): mark `challengeExpired`.
4. Else, in dry or pause mode: do nothing.
5. Else: send one warning to the notifier, then mark `challenged`.

The model has three layers:

- `Watchers.Decide` is the decision chain as a pure function.
- `Watchers.StepRoot` is one root's effect on the store and the notifier log. `Watchers.Run` is a whole poll.
- The class `Watchers.ChallengeWatcher` does the same work imperatively. It reads a `TransferRootStore` (a class over a `map` of records) and appends to a `notifications` log. Its methods are proved to agree with `StepRoot` and `Run`.

The bridge reads are value inputs, a datatype of total functions that either answer or throw. They are `getTransferRootCommittedAt`, `getTransferBond` and `getChallengePeriod`. `getTransferRootId` is a function-valued field of the watcher. The clock is a `now` parameter in milliseconds. The pause switch is the watcher's `pauseMode` field.

**Chain identity in the SDK** (`packages/sdk/src/models/Chain.ts`).
The `Chain` constructor trims and lower-cases a name into a slug. It folds kovan, goerli, mainnet, staging and ethereum into `ethereum` and sets `isL1` for them. `newChain` maps the four network names to `ethereum`, rejects slugs missing from the metadata table, and builds the chain from the entry's `name`. `fromSlug` renames `xdai` to `gnosis` first. `equals` is slug equality. The metadata table is a `map` parameter. JavaScript's `trim` and `toLowerCase` are explicit functions in the module `JsStrings`.

The intended challenge protocol adds three rules: an error for one candidate does not stop the others, a root expires once `now ≥ deadline`, and dry mode still records the root as challenged. The model follows the code instead, which differs in these points:

- The deadline test is strict (`<`). When `now` equals the bound, the root is still actionable, not expired.
- In the actionable case, dry or pause mode returns before the store write. That root gets no record and no warning. The writes for confirmed, already-challenged and lapsed roots happen in every mode.
- The file submits no challenge transaction. The "act" step is only "notify, then mark `challenged`".
- No per-candidate error handling exists. A read that throws ends the whole poll. Earlier candidates keep their updates, and later ones are not touched in that poll (`WatcherProperties.RunStopsAtFirstFailure`).

## Model

| member | source | states |
|---|---|---|
| `Watchers.ChallengeWatcher.PollHandler` | packages/hop-node/src/watchers/ChallengeWatcher.ts:39-44 | A non-L1 watcher's poll changes no record and sends nothing. An L1 watcher's poll has exactly the effect of `Run` over the store's challengeable roots, taken when the poll starts. |
| `Watchers.ChallengeWatcher.CheckChallengeableTransferRootFromDb` | packages/hop-node/src/watchers/ChallengeWatcher.ts:46-61 | The loop processes the candidates one by one, in the store's order, each with its own hash and bond amount. The final store, log and failure equal `Run`'s. |
| `Watchers.ChallengeWatcher.CheckChallengeableTransferRoot` | packages/hop-node/src/watchers/ChallengeWatcher.ts:63-127 | The imperative decision chain with early returns. Its effect on the store and the log equals `StepRoot`'s. When it throws, it changes nothing. |
| `Watchers.Decide` | packages/hop-node/src/watchers/ChallengeWatcher.ts:75-119 | A root without a store record always fails. A nonzero commit answer decides `ConfirmedOnL1`, whatever the bond and the period say. `ShouldChallenge` is decided only for an unconfirmed root with an unstarted bond, inside its window, in active mode. |
| `Watchers.PeriodOver` | packages/hop-node/src/watchers/ChallengeWatcher.ts:103-105 | A root with no `bondedAt` is never over. The test is strict: up to and including `now == (bondedAt + challengePeriod) * 1000` the period is not over. |
| `Watchers.PeriodOverIsMonotone` | packages/hop-node/src/watchers/ChallengeWatcher.ts:103-105 | Once the period is over at some `now`, it is over at every later time. |
| `Watchers.StepRoot` | packages/hop-node/src/watchers/ChallengeWatcher.ts:63-127 | A candidate without a record fails with `NotFound`. A successful step keeps the store's keys and appends at most one warning to the log. |
| `Watchers.Run` | packages/hop-node/src/watchers/ChallengeWatcher.ts:54-60 | A poll keeps the store's keys and appends at most one warning per candidate. |
| `Watchers.ChallengeWatcher.constructor` | packages/hop-node/src/watchers/ChallengeWatcher.ts:24-37 | The watcher keeps its L1 flag, dry mode, store and root-id function. It starts unpaused with an empty notifier log. |
| `TransferRoots.TransferRootStore.ChallengeableTransferRoots` | packages/hop-node/src/watchers/ChallengeWatcher.ts:47 | Every candidate names a stored record that is bonded and not yet challenged, expired or confirmed. |
| `TransferRoots.Challengeable` | packages/hop-node/src/watchers/ChallengeWatcher.ts:47 | The candidates' hashes are a subsequence of the insertion order. Each candidate carries its record's `bondTotalAmount`. Every challengeable record in the order is among them. |
| `TransferRoots.TransferRootStore.GetByTransferRootHash` | packages/hop-node/src/watchers/ChallengeWatcher.ts:75-77 | Finds the record exactly when the hash is stored. |
| `TransferRoots.TransferRootStore.Update` | packages/hop-node/src/watchers/ChallengeWatcher.ts:86-88 | Raises one flag of one record. No other record and no other field changes. |
| `TransferRoots.SetFlagRaisesOnlyThatFlag` | packages/hop-node/src/watchers/ChallengeWatcher.ts:96-98 | An update sets its flag to true, lowers no flag, and changes no other field. |
| `WatcherProperties.StepRootUsesOneRootId` | packages/hop-node/src/watchers/ChallengeWatcher.ts:68-92 | The step depends on the bridge only through its answers at the single id `getTransferRootId(hash, amount)`. That id is used for the commit lookup on the record's destination chain and for the bond lookup. |
| `WatcherProperties.StepConfirmed` | packages/hop-node/src/watchers/ChallengeWatcher.ts:80-90 | A nonzero commit timestamp writes only `challengeExpired := true` and sends nothing. The result is the same for any bridge with the same commit answer, so the bond and the period are never consulted there. |
| `WatcherProperties.StepAlreadyChallenged` | packages/hop-node/src/watchers/ChallengeWatcher.ts:92-100 | An unconfirmed root whose bond has `challengeStartTime > 0` gets only `challenged := true`. Nothing is sent, and the challenge period is not consulted. |
| `WatcherProperties.StepDeadline` | packages/hop-node/src/watchers/ChallengeWatcher.ts:102-113 | For an unconfirmed, unchallenged root, `challengeExpired` ends up true exactly when it already was or `bondedAt*1000 + challengePeriod*1000 < now`. When the period is over, the step writes only `challengeExpired := true` and sends nothing. |
| `WatcherProperties.WarningOnlyWhenActionable` | packages/hop-node/src/watchers/ChallengeWatcher.ts:80-126 | A step sends a warning only under all of these: the commit answer is 0, the bond has not started, the period was read and has not lapsed, and the mode is active. |
| `WatcherProperties.DeadlineIsExclusive` | packages/hop-node/src/watchers/ChallengeWatcher.ts:105 | When `now` equals the bound, the decision is the actionable one (skip or challenge), not expiry. |
| `WatcherProperties.StepActionable` | packages/hop-node/src/watchers/ChallengeWatcher.ts:115-126 | In the actionable case, dry or pause mode leaves the state as it was. Otherwise exactly one warning naming the root and amount is appended, and then `challenged := true` is written. |
| `WatcherProperties.StepWritesAtMostOneFlag` | packages/hop-node/src/watchers/ChallengeWatcher.ts:86-126 | A step keeps every record's key and every other record. It changes the candidate's record only by raising `challenged` or `challengeExpired` (or not at all). It appends at most that candidate's warning, and only when it marks `challenged`. |
| `WatcherProperties.StepIsIdempotent` | packages/hop-node/src/watchers/ChallengeWatcher.ts:63-127 | Re-running a successful step on its own result, with the same on-chain facts, succeeds and leaves the records unchanged. |
| `WatcherProperties.DecidedRootLeavesTheCandidates` | packages/hop-node/src/watchers/ChallengeWatcher.ts:84-126 | After any decision except the dry/pause skip, the root is no longer challengeable. |
| `WatcherProperties.RunAppend` | packages/hop-node/src/watchers/ChallengeWatcher.ts:54-60 | A poll over `a + b` is a poll over `a`, then, if nothing threw, a poll over `b`. |
| `WatcherProperties.RunStopsAtFirstFailure` | packages/hop-node/src/watchers/ChallengeWatcher.ts:54-60 | When a candidate throws, the poll ends with the state the earlier candidates left. No later candidate is processed. |
| `WatcherProperties.RunRaisesOnly` | packages/hop-node/src/watchers/ChallengeWatcher.ts:54-60 | A poll keeps every record and lowers no flag in any record. |
| `WatcherProperties.RunTouchesOnlyCandidates` | packages/hop-node/src/watchers/ChallengeWatcher.ts:54-60 | A record that is not a candidate of the poll is left exactly as it was. |
| `WatcherProperties.RunOnlyWarnsAboutCandidates` | packages/hop-node/src/watchers/ChallengeWatcher.ts:121-123 | A poll only appends to the notifier log. Each new warning names a candidate and its amount. In dry or pause mode a poll sends nothing. |
| `WatcherProperties.ScenarioWindowLapsed` | packages/hop-node/src/watchers/ChallengeWatcher.ts:102-113 | Bonded at t0 with an 86400 s period and polled at t0 + 86500 s, never confirmed or challenged: the root expires. |
| `WatcherProperties.ScenarioConfirmedEarly` | packages/hop-node/src/watchers/ChallengeWatcher.ts:80-90 | Polled at t0 + 100 s with a commit timestamp: the root expires, whatever the bond says. |
| `WatcherProperties.ScenarioWithinWindow` | packages/hop-node/src/watchers/ChallengeWatcher.ts:102-126 | Polled at t0 + 100 s, unconfirmed and unchallenged: the decision is to challenge in active mode and to skip in dry or pause mode. |
| `JsStrings.LeadingWhitespace` | packages/sdk/src/models/Chain.ts:32 | The count covers exactly the maximal whitespace prefix. |
| `JsStrings.TrailingWhitespace` | packages/sdk/src/models/Chain.ts:32 | The count covers exactly the maximal whitespace suffix. |
| `JsStrings.Trim` | packages/sdk/src/models/Chain.ts:32 | The result is a contiguous slice of the input. Only whitespace lies outside it, and it has no whitespace at either end. |
| `JsStrings.TrimOfTrimmed` | packages/sdk/src/models/Chain.ts:32 | A string with no whitespace at its ends is its own trim. |
| `JsStrings.ToLowerCase` | packages/sdk/src/models/Chain.ts:32 | The result has the input's length and is lower-cased character by character. |
| `JsStrings.LowerCharKeepsWhitespace` | packages/sdk/src/models/Chain.ts:32 | Lower-casing a character does not change whether it is whitespace. |
| `JsStrings.ToLowerCaseIdempotent` | packages/sdk/src/models/Chain.ts:32 | Lower-casing twice is lower-casing once. |
| `JsStrings.TrimLowerIdempotent` | packages/sdk/src/models/Chain.ts:32 | `trim().toLowerCase()` applied to its own result changes nothing. |
| `Chains.Chain.constructor` | packages/sdk/src/models/Chain.ts:30-51 | The slug and `isL1` are `Normalize(name)`. The chain id is assigned only when truthy, and the provider only when given. The native token symbol comes from the slug's metadata entry. |
| `Chains.NewChainObject` | packages/sdk/src/models/Chain.ts:30-51 | Constructing throws `MissingNetworkMetadata` exactly when the normalised slug has no metadata entry. Otherwise it gives a fresh chain with the constructor's fields: name, `Normalize` identity, truthy chain id, provider, and the slug's metadata `nativeTokenSymbol`. |
| `Chains.NewChain` | packages/sdk/src/models/Chain.ts:62-75 | Resolves the network aliases, throws `UnsupportedChain` for a slug missing from the table, and builds from the entry's `name`. The slug and `isL1` agree with `NewChainIdentity`, the chain id is passed on, and no provider is set. `nativeTokenSymbol` comes from the slug's metadata entry. |
| `Chains.NewChainIdentity` | packages/sdk/src/models/Chain.ts:62-75 | It fails with `UnsupportedChain` exactly when the alias-resolved argument is not in the table. On success, the resolved argument and the resulting slug both have metadata entries. |
| `Chains.FromSlug` | packages/sdk/src/models/Chain.ts:21-28 | Renames `xdai` to `gnosis`, then behaves as `newChain` with no chain id: same identity or error, the entry's name, no chain id, no provider, and the metadata `nativeTokenSymbol`. |
| `Chains.Normalize` | packages/sdk/src/models/Chain.ts:32-42 | The derived identity is L1 exactly when its slug is `ethereum`. |
| `Chains.Chain.Equals` | packages/sdk/src/models/Chain.ts:53-55 | Every chain equals itself. |
| `ChainProperties.NormalizeSlug` | packages/sdk/src/models/Chain.ts:32-42 | The slug is the trimmed, lower-cased name, except that kovan, goerli, mainnet and staging become `ethereum`. `isL1` holds exactly for those four and `ethereum`. |
| `ChainProperties.SlugIsCanonical` | packages/sdk/src/models/Chain.ts:32 | A slug has no whitespace at either end and no upper-case ASCII letter. |
| `ChainProperties.NormalizeIdempotent` | packages/sdk/src/models/Chain.ts:32-42 | Constructing from an existing chain's slug gives the same slug and the same `isL1`. |
| `ChainProperties.SlugNotNetworkName` | packages/sdk/src/models/Chain.ts:33-42 | A slug is never kovan, goerli, mainnet or staging. |
| `ChainProperties.EqualsIsEquivalence` | packages/sdk/src/models/Chain.ts:53-55 | `equals` holds exactly when the slugs are equal. It is reflexive, symmetric and transitive. |
| `ChainProperties.FromSlugXdaiIsGnosis` | packages/sdk/src/models/Chain.ts:21-28 | `fromSlug('xdai')` and `fromSlug('gnosis')` have the same outcome. |
| `ChainProperties.NewChainNetworkAliases` | packages/sdk/src/models/Chain.ts:62-70 | `newChain` of mainnet, staging, goerli or kovan has the same outcome as `newChain('ethereum')`. |
| `ChainProperties.NewChainLooksUpVerbatim` | packages/sdk/src/models/Chain.ts:62-73 | `newChain` looks its argument up as given: the key is the argument itself or `ethereum`, never a trimmed or lower-cased form. |
| `ChainProperties.NewChainFromMetadataName` | packages/sdk/src/models/Chain.ts:74 | A successful `newChain` takes its identity from the metadata entry's name. That identity is stable under normalisation. |

## Left out

- The store's own implementation of `getChallengeableTransferRoots`, `getByTransferRootHash` and `update` is not part of this model. The challengeable filter is taken as: `bondedAt` and `bondTotalAmount` both present, not challenged, not expired, not confirmed, in insertion order. Only the watcher's use of the store is taken from the code.
- TransferRoots.TransferRootStore.Update: only the merge into an existing record is modelled. The watcher updates only a record it has just read.
- Store write failures are not modelled. Only the lookup and the three bridge reads can throw.
- One `now` and one fixed set of bridge answers serve every candidate of a poll. The code reads `Date.now()` afresh for each root (ChallengeWatcher.ts:105), after three awaited chain reads. So the model cannot express a window that lapses during a poll, or chain state that changes between candidates.
- The pause switch: `handleStateSwitch` lives in the watcher base class and is not part of this model. `pauseMode` is read once per poll, so a switch toggled in the middle of a poll is not captured.
- The base watcher's timer loop, concurrency between watchers, the sibling-watcher registry and the reentrancy guard are not modelled.
- `getTransferRootId` is an arbitrary function input. Its hashing is not modelled.
- Logging, `formatUnits` and notifier delivery are not modelled. A warning is a value holding the root hash and amount, and the message text is not formatted.
- JavaScript number semantics: `bondedAt*1000 + challengePeriod*1000` is exact integer arithmetic here. Floating-point rounding above 2^53 and the overflow thrown by `BigNumber.toNumber` on `challengeStartTime` are not modelled. A missing `bondedAt` follows JavaScript's NaN comparison and never counts as expired.
- JsStrings.ToLowerCase: only the ASCII letters A-Z are mapped. JavaScript's full Unicode case mapping is not modelled. That matters for non-ASCII input names passed to `new Chain(name)`: for example U+212A KELVIN SIGN lower-cases to ASCII `k` in JavaScript, so `'\u212Aovan'` is an L1 name in the source but not in the model.
- Chains.NewChainObject, Chains.NewChain, ChainProperties.NewChainLooksUpVerbatim: `metadata.networks` is a `map`, so only the table's own keys count as entries. The source indexes a JavaScript object, where inherited names such as `constructor`, `__proto__` and `toString` also resolve. So `new Chain('constructor')` succeeds in the source but fails in the model. And `newChain('toString')` passes the check at Chain.ts:71 and then throws a TypeError at :50, where the model gives `UnsupportedChain`.
- The `NetworkSlug` and `ChainSlug` constants file is not part of this model. Their values are taken as the lower-case names kovan, goerli, mainnet, staging, ethereum and gnosis.
- The static chains `Chain.Ethereum` … `Chain.Polygon` (Chain.ts:15-19) are `newChain` calls over the concrete metadata configuration. That configuration is not modelled, so they are covered only through `NewChain`.
- The `rpcUrl` getter and provider connections are not modelled. A provider is an opaque handle.
- The frontend hooks `useL1CanonicalBridge.ts` and `useEstimateTxCost.ts` are user-interface code and are not part of this model.
