# Batch contract deployer, modelled in Dafny

`src/deploy.mjs` deploys four hard-coded Midnight contracts (KYC Light,
DID Light, AMM Light, TrustPoints Light) one after the other and writes the
resulting map `namespace -> address` to `deployed-addresses.json`. This
project models its decision logic. Every external effect is an abstract
outcome that either succeeds with a value or fails. The effects are:
- the proof-server health probe;
- the mnemonic;
- the wallet and provider construction;
- the key files;
- transaction construction, balance-and-prove and submission;
- the final write.

Modules:

- `Wrappers` (`wrappers.dfy`): `Option` and `Result`.
- `Namespace` (`namespace.dfy`): the key directory of a contract, computed
  as `name.toLowerCase().replace(' ', '_')`.
  - It lower-cases ASCII letters.
  - It replaces the first space only, because a string pattern given to
    `replace` matches once.
- `KeyPaths` (`key_paths.dfy`): the key-file path
  `join('build', 'contracts', ns, 'keys', circuit + '.verifier')`, with a
  `Split` that recovers the segments.
- `VerifierKeys` (`verifier_keys.dfy`):
  - The key files are a map from path to bytes.
  - `GetVerifierKey` is the strict loader.
  - `GetVerifierKeys` is the best-effort aggregator. It catches each
    rejection as `null`, then filters the nulls out, so it returns a
    sequence of keys without their circuit names.
  - `Present` is an independent reference definition of which names
    survive.
- `Deploy` (`deploy.dfy`): the driver.
  - The external world is an `Environment` value. It holds booleans, the
    key files, and one oracle function per wallet-side call.
  - A run is described by the `Step`s it attempts and the `Failure` that
    ends it.
  - `Plan(units)` lists every step of a run that never fails: the health
    probe, the mnemonic check and the provider construction; then, per unit
    in list order, one key load per circuit, build, prove and submit; then
    one write.
  - The specification functions are:
    - `LoadKeys`: the inner loop;
    - `Stages`: `deployContractWithLogging`;
    - `DeployUnit` and `RunBatch`: the outer loop;
    - `Conclude` and `Run`: `main` with its `.catch`.
  - The imperative methods `LoadUnitKeys`, `DeployContractWithLogging`,
    `DeployBatch` and `RunMain` mirror the nested `for` loops. Their local
    variables hold the key map, the address map and the step trace, and
    they reassign them iteration by iteration. Each method is proved equal
    to its specification function.
  - `Contracts` is the hard-coded batch of lines 17-22.

The value recorded per contract is whatever `submitTransaction` returned,
because `deployContractWithLogging` reports the transaction id as the
contract address (line 120). The model keeps that.

The behaviour modelled, as the code has it:

- The loop is fail-fast. A failing unit ends the batch: any thrown error
  reaches `main().catch`, exits 1 and writes nothing.
- `main` loads each key with the strict `getVerifierKey` and no catch, so a
  missing key file is fatal. The best-effort `getVerifierKeys` is never
  called by the loop. `StrictLoadVersusAggregate` relates the two.
- `getVerifierKeys` returns an array of keys, not a map from circuit to
  key.
- The health probe runs before the mnemonic check, which sits inside
  `createProviders`.
- `!process.env.MNEMONIC` also treats an empty mnemonic as missing
  (`HasMnemonic`).

## Model

| member | source | states |
|---|---|---|
| `Namespace.LowerChar` | src/deploy.mjs:130 | lower-casing a character yields no upper-case letter; an ASCII capital moves down by 32, every other character is kept |
| `Namespace.ToLower` | src/deploy.mjs:130 | lower-casing keeps the length of the name |
| `Namespace.ToLowerAt` | src/deploy.mjs:130 | lower-casing works character by character: position i of the result is character i lower-cased |
| `Namespace.IndexOf` | src/deploy.mjs:130 | the search of `replace` finds nothing exactly when the character is absent, and otherwise finds its first occurrence |
| `Namespace.ReplaceFirst` | src/deploy.mjs:130 | `replace` with a one-character pattern keeps the length, leaves a string without the pattern unchanged, and otherwise puts the replacement in |
| `Namespace.ReplaceFirstAt` | src/deploy.mjs:130 | `replace` with a one-character pattern keeps the length and changes only the position of the first match |
| `Namespace.IndexOfSpaceLowered` | src/deploy.mjs:130 | lower-casing moves no space, so the space replaced is the first space of the original name |
| `Namespace.ContractDir` | src/deploy.mjs:130 | `name.toLowerCase().replace(' ', '_')`: the namespace has the name's length (its characters are pinned by `ContractDirAt`) |
| `Namespace.ContractDirAt` | src/deploy.mjs:130 | the namespace has the name's length, holds `_` at the name's first space and the lower-cased character everywhere else (later spaces stay), and contains no capital |
| `Namespace.ContractDirWithoutSpace` | src/deploy.mjs:130 | a name without a space is only lower-cased |
| `Namespace.ContractDirWithSpace` | src/deploy.mjs:130 | a name whose first space is at k becomes the lower-cased name with `_` spliced in at k |
| `Namespace.ContractDirIs` | src/deploy.mjs:130 | any string that agrees pointwise with the lower-cased name, with `_` at the first space, is the namespace |
| `Namespace.ContractDirReplacesOnce` | src/deploy.mjs:130 | only the first space is replaced: "A B C" becomes "a_b c" |
| `KeyPaths.KeyPath` | src/deploy.mjs:78 | the key path `join('build', 'contracts', ns, 'keys', circuit + '.verifier')` always lies under `build/contracts/` |
| `KeyPaths.SplitJoin` | src/deploy.mjs:78 | the join of proper segments can be read back: splitting it at `/` gives those segments |
| `KeyPaths.KeyPathSegments` | src/deploy.mjs:78 | the key path consists of exactly the segments build, contracts, ns, keys and `circuit.verifier`, in that order |
| `KeyPaths.KeyPathForm` | src/deploy.mjs:78 | the key path is the string `build/contracts/<ns>/keys/<circuit>.verifier` |
| `KeyPaths.KeyPathInjective` | src/deploy.mjs:78 | two different (namespace, circuit) pairs never share a key file |
| `VerifierKeys.GetVerifierKey` | src/deploy.mjs:77-82 | the strict loader succeeds exactly when the key file at the key path is readable, and then yields that file's bytes |
| `VerifierKeys.Attempts` | src/deploy.mjs:84 | one load attempt per name, in order, each caught as null exactly when that name's key file is unreadable |
| `VerifierKeys.GetVerifierKeys` | src/deploy.mjs:83-86 | the best-effort aggregate never rejects and never has more keys than names |
| `VerifierKeys.Somes` | src/deploy.mjs:85 | filtering out the nulls never lengthens the sequence |
| `VerifierKeys.Present` | src/deploy.mjs:83-86 | the reference list of loadable names holds only names given and readable, and is no longer than the input |
| `VerifierKeys.SomesAll` | src/deploy.mjs:85 | the filter keeps everything exactly when there is no null |
| `VerifierKeys.GetVerifierKeysAreLoadedKeys` | src/deploy.mjs:83-86 | the aggregate is exactly the bytes of the readable key files, one per readable name, in input order |
| `VerifierKeys.GetVerifierKeysCount` | src/deploy.mjs:83-86 | the aggregate never has more keys than names, and has as many exactly when every key file is readable |
| `VerifierKeys.GetVerifierKeysAppend` | src/deploy.mjs:84-85 | each name is loaded independently and order is preserved: the aggregate of a concatenation is the concatenation of the aggregates |
| `Deploy.LoadKeys` | src/deploy.mjs:129-134 | the inner loop attempts at most one load per circuit, all of them on success, and a failure is an attempted step |
| `Deploy.Stages` | src/deploy.mjs:108-120 | `deployContractWithLogging` attempts one to three stages, all three when it succeeds |
| `Deploy.DeployUnit` | src/deploy.mjs:128-143 | one iteration of the outer loop attempts at most its key loads plus three stages, exactly that many on success |
| `Deploy.RunBatch` | src/deploy.mjs:126-145 | the outer loop attempts at least one step per unit when it succeeds |
| `Deploy.Conclude` | src/deploy.mjs:144-154 | after the batch, the run exits 0 exactly when the batch succeeded and the write succeeded, then with the batch's map written; otherwise it exits 1 and writes nothing |
| `Deploy.Run` | src/deploy.mjs:123-154 | `main` with its `.catch` exits 0 exactly when the health probe, the mnemonic, the providers, the batch and the write all succeed; otherwise it exits 1 and writes nothing |
| `Deploy.DeployContractWithLogging` | src/deploy.mjs:108-120 | the method's steps and outcome are those of `Stages`: build, then balance-and-prove, then submit, stopping at the first failure |
| `Deploy.LoadUnitKeys` | src/deploy.mjs:129-134 | the inner loop, which fills a fresh key map with one strict load per circuit, has the steps and outcome of `LoadKeys` |
| `Deploy.DeployBatch` | src/deploy.mjs:126-145 | the outer loop, which loads keys, runs the stages and records each address under its namespace, has the steps and outcome of `RunBatch` |
| `Deploy.RunMain` | src/deploy.mjs:123-154 | `main` with its `.catch` yields exactly the trace, written file, exit code and failure of `Run` |
| `Deploy.LoadFailureSticks` | src/deploy.mjs:131-134 | once a key load has failed, no later circuit changes the outcome |
| `Deploy.BatchFailureSticks` | src/deploy.mjs:128-145 | once a unit has failed, no later unit changes the outcome of the batch |
| `Deploy.LoadAbortsAt` | src/deploy.mjs:131-134 | a missing key file for circuit j ends the unit's key loading with `KeyNotFound` for that circuit, right after its load attempt |
| `Deploy.BatchAbortsAt` | src/deploy.mjs:128-145 | a failing unit i ends the batch with that unit's failure, and no later unit is attempted |
| `Deploy.LoadKeysSucceeds` | src/deploy.mjs:129-134 | the key map is fresh per unit: it exists exactly when every key file is readable, has one entry per distinct circuit name, and each entry holds that circuit's file bytes |
| `Deploy.LoadedAllPresent` | src/deploy.mjs:131-134 | key loading that succeeded found every circuit's key file |
| `Deploy.LoadKeysFollowsPlan` | src/deploy.mjs:131-134 | keys are loaded in circuit order; on failure the last attempt is the first circuit whose file is missing, after all earlier circuits loaded |
| `Deploy.StrictLoadVersusAggregate` | src/deploy.mjs:83-86 | the loop's strict loading succeeds exactly when the best-effort aggregate keeps every name, and then the aggregate lists the loop's keys in circuit order |
| `Deploy.StagesInOrder` | src/deploy.mjs:108-118 | build precedes balance-and-prove, which precedes submit; prove is attempted only after the build returned a transaction, submit only after the proof did; a failed build, proof or submission ends the stages with exactly that failure; success means all three oracles succeeded and yields the submitted id |
| `Deploy.DeployUnitFollowsPlan` | src/deploy.mjs:128-143 | within one unit all keys load before the build, then prove, then submit; a failure is the unit's last step |
| `Deploy.BatchFollowsPlan` | src/deploy.mjs:128-145 | units are attempted in list order, each following its unit plan, and the batch stops at the first failure |
| `Deploy.ConcludeFollowsPlan` | src/deploy.mjs:144-154 | after a batch that followed its plan, the trace is a prefix of the run's plan ending at the failed step; a failed batch fails the run with the batch's error, a failed write with `WriteFailed`, both writing nothing; a successful batch and write exit 0 with the batch's map written |
| `Deploy.RunFollowsPlan` | src/deploy.mjs:123-154 | every run attempts a prefix of the plan; exit 0 exactly when the file is written, and then the whole plan ran; a failure is the last step attempted, so no later unit runs and nothing is written |
| `Deploy.PrefixSucceeds` | src/deploy.mjs:128-145 | the first i units succeed together exactly when each of them succeeds |
| `Deploy.BatchSucceeds` | src/deploy.mjs:128-145 | the batch succeeds exactly when every unit's keys, build, proof and submission succeed |
| `Deploy.PrefixFirstFailure` | src/deploy.mjs:128-145 | a failed prefix reports the error of its first failing unit, all earlier units having succeeded |
| `Deploy.BatchFirstFailure` | src/deploy.mjs:128-145 | a failed batch reports the error of its first failing unit, all earlier units having succeeded |
| `Deploy.RunSucceeds` | src/deploy.mjs:123-154 | a run exits 0 exactly when the proof server is healthy, the mnemonic is set, the providers are built, every unit deploys and the write succeeds; any other run exits 1 and writes nothing |
| `Deploy.RunFailure` | src/deploy.mjs:123-154 | which error ends a failed run: provider construction after both gates passed, else the batch's error, else the write |
| `Deploy.HealthGate` | src/deploy.mjs:30-34 | a failed health probe aborts the run first: no mnemonic check, no providers, no unit, no write, exit 1 |
| `Deploy.MnemonicGate` | src/deploy.mjs:36-37 | the mnemonic is checked only after the health probe passed; a missing or empty mnemonic aborts before the wallet is built |
| `Deploy.BatchPlanUnitSteps` | src/deploy.mjs:128-145 | every step of the batch plan is a unit step of a unit in the list |
| `Deploy.BatchPlanInUnitOrder` | src/deploy.mjs:128 | the unit steps of the batch plan never return to an earlier unit |
| `Deploy.PlanPrefixOrder` | src/deploy.mjs:123-148 | in any prefix of the plan, the providers are built only at step three, the file is written only as the plan's last step, and units appear in list order |
| `Deploy.RunStepsOnceAndInOrder` | src/deploy.mjs:123-148 | in every run the providers are built at most once, the file is written at most once and last, and units are visited in list order |
| `Deploy.PrefixKeys` | src/deploy.mjs:126-145 | after the first i units succeeded, the map's keys are their namespaces |
| `Deploy.PrefixAddresses` | src/deploy.mjs:126-145 | after the first i units succeeded, each namespace holds the id of the last of them with that namespace |
| `Deploy.BatchAddresses` | src/deploy.mjs:126-145 | after a successful batch every unit was deployed; the map's keys are the namespaces; a later unit with the same namespace overwrites an earlier one |
| `Deploy.NamespacesBound` | src/deploy.mjs:144 | there are never more namespaces than units, and exactly as many when the namespaces are pairwise different |
| `Deploy.NamespacesMembers` | src/deploy.mjs:144 | every namespace belongs to some unit of the batch |
| `Deploy.RunAddresses` | src/deploy.mjs:144-147 | the written file maps each unit's namespace to the submit result of the last unit with that namespace, and holds at most one entry per unit |
| `Deploy.KycLightNamespace` | src/deploy.mjs:12-18 | "KYC Light" keeps its keys under `kyc_light`, the directory its module is imported from |
| `Deploy.DidLightNamespace` | src/deploy.mjs:13-19 | "DID Light" keeps its keys under `did_light`, the directory its module is imported from |
| `Deploy.AmmLightNamespace` | src/deploy.mjs:14-20 | "AMM Light" keeps its keys under `amm_light`, the directory its module is imported from |
| `Deploy.TrustPointsLightNamespace` | src/deploy.mjs:15-21 | "TrustPoints Light" keeps its keys under `trustpoints_light`, the directory its module is imported from |
| `Deploy.ContractsDistinct` | src/deploy.mjs:17-22 | the four hard-coded contracts have four different namespaces, so none of their entries overwrites another |

## Left out

- Network I/O is reduced to outcomes. The `fetch` of `/health` and its
  `response.ok` become the boolean `proofServerHealthy`, and the status text
  of the error is not modelled.
- Wallet and provider construction is one boolean outcome,
  `providersReady`. That covers `WalletBuilder.buildFromSeed`, the bip39
  seed derivation, `wallet.state()`, `firstValueFrom`, the 5-second settle
  and the indexer, proof and private-state provider constructors. These are
  foreign libraries, cryptography, timing and remote services.
- `createUnprovenDeployTxFromVerifierKeys`, `balanceAndProveTransaction`
  and `submitTransaction` are oracles. They take the unit's position in the
  batch and their input, and they return a value or fail. Their internals
  are library code, and the wallet's changing session state is represented
  only by the position argument.
- The initial state and the private-state key are passed through to the
  build oracle unchanged. The contract object itself is represented by its
  module directory.
- File I/O is reduced to its contents. Reading key bytes is a lookup in a
  map from path to bytes, and a missing path stands for any read error.
  `JSON.stringify` and `writeFile` become the written map plus a success
  flag.
- `console.log` and `console.error` output is not modelled.
- `Promise.all` concurrency in `getVerifierKeys` is modelled as a
  sequential map, because its results keep input order.
- The dynamic `import()` of the contract modules and of the libraries is
  not modelled. A contract's module is recorded only as its directory name.
- The JavaScript `Map` keeps insertion order; the Dafny `map` used for the
  per-unit key map does not. The model keeps the contents only.
- `Namespace.LowerChar`: lower-cases ASCII capitals only. `toLowerCase`
  also maps non-ASCII letters, and every hard-coded name is ASCII.
- `KeyPaths.Join`: only the dropping of empty segments is modelled. The
  `path.join` normalisation of `.`, `..` and of `/` inside a segment is not,
  so `KeyPathSegments` and `KeyPathInjective` require a namespace that is a
  proper segment (non-empty, without `/`, neither `.` nor `..`) and a
  circuit name without `/`. `Join` carries no contract of its own; what it
  computes is stated by `SplitJoin`, `KeyPathSegments` and `KeyPathForm`.
- `process.exit(1)` is modelled as the exit code of the run result. The
  error's stack trace is not modelled.
- Exit code 0 on success is an assumption of the model. The code never
  calls `process.exit(0)`; it relies on Node ending once nothing is left
  running.
- `Deploy.RunAddresses`: the model takes any list of units, but
  `deployedAddresses` (lines 126, 144) is a plain object. A namespace
  `__proto__` would hit the prototype setter and record nothing, so the
  key set stated here is not what the code does for such a list. No
  hard-coded name produces that namespace.
- `Deploy.HasMnemonic` carries no contract of its own. Its effect on the
  run is stated by `MnemonicGate` and `RunSucceeds`.
