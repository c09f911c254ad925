/**
 * The batch driver `main` and the per-contract stages of
 * `deployContractWithLogging`.  Every external call (proof-server health
 * probe, wallet and provider construction, key-file reads, transaction
 * construction, balance-and-prove, submission, the output write) is an
 * oracle in `Environment`: it succeeds with a value or fails.  A failure
 * anywhere is a thrown error that reaches `main().catch`: the process
 * exits with 1 and the address file is not written.
 */
module Deploy {
  import opened Wrappers
  import opened Namespace
  import opened KeyPaths
  import opened VerifierKeys

  type Address = string
  type UnprovenTx = seq<bv8>
  type ProvenTx = seq<bv8>

  /** One field of an initial private state; the driver passes it through unmodified. */
  datatype StateField = EmptyMap | Text(text: string) | Number(number: int)

  /** One entry of the hard-coded `contracts` list. */
  datatype DeploymentUnit = DeploymentUnit(
    name: string,
    contractModule: string,   // build directory the compiled contract is imported from
    circuits: seq<string>,
    stateKey: string,
    initialState: seq<StateField>)

  /** The batch as written in the deploy script (lines 17-22). */
  const Contracts: seq<DeploymentUnit> := [
    DeploymentUnit("KYC Light", "kyc_light", ["verifyKyc"], "records", [EmptyMap, Text("")]),
    DeploymentUnit("DID Light", "did_light", ["createDid"], "documents", [EmptyMap, Text("")]),
    DeploymentUnit("AMM Light", "amm_light", ["borrow"], "tDust", [Number(1000), Number(1), Number(1000)]),
    DeploymentUnit("TrustPoints Light", "trustpoints_light", ["addPoints"], "points", [EmptyMap])
  ]

  /**
   * The outcomes of the external world.  The wallet-side calls take the
   * position of the unit in the batch, since the wallet session's state
   * moves on from one deployment to the next.
   */
  datatype Environment = Environment(
    proofServerHealthy: bool,                 // `response.ok` of GET /health
    mnemonic: Option<string>,                 // `process.env.MNEMONIC`
    providersReady: bool,                     // wallet build, state sync and provider construction
    keyFiles: KeyFiles,                       // the readable verifier-key files
    createTx: (nat, DeploymentUnit, map<string, Key>) -> Option<UnprovenTx>,
    balanceAndProve: (nat, UnprovenTx) -> Option<ProvenTx>,
    submit: (nat, ProvenTx) -> Option<Address>,
    writeSucceeds: bool)                      // `writeFile('deployed-addresses.json', ...)`

  /** An external step the driver attempts; unit steps carry the unit's position. */
  datatype Step =
    | ProbeHealth
    | CheckMnemonic
    | BuildProviders
    | LoadKey(unit: nat, circuit: string)
    | BuildTx(unit: nat)
    | ProveTx(unit: nat)
    | SubmitTx(unit: nat)
    | WriteAddresses

  /** The error that aborts the run. */
  datatype Failure =
    | ProofServerDown
    | MissingMnemonic
    | ProviderSetupFailed
    | KeyNotFound(unit: nat, circuit: string)
    | BuildFailed(unit: nat)
    | ProveFailed(unit: nat)
    | SubmitFailed(unit: nat)
    | WriteFailed

  /** The steps attempted so far and what they produced. */
  datatype Progress<+T> = Progress(steps: seq<Step>, outcome: Result<T, Failure>)

  /** What a run leaves behind: the steps it attempted, the file it wrote and its exit code. */
  datatype RunResult = RunResult(
    trace: seq<Step>,
    written: Option<map<string, Address>>,
    exitCode: nat,
    failure: Option<Failure>)

  predicate IsUnitStep(s: Step) {
    s.LoadKey? || s.BuildTx? || s.ProveTx? || s.SubmitTx?
  }

  /** The step at which a failure is raised. */
  function StepOf(f: Failure): Step {
    match f
    case ProofServerDown => ProbeHealth
    case MissingMnemonic => CheckMnemonic
    case ProviderSetupFailed => BuildProviders
    case KeyNotFound(i, c) => LoadKey(i, c)
    case BuildFailed(i) => BuildTx(i)
    case ProveFailed(i) => ProveTx(i)
    case SubmitFailed(i) => SubmitTx(i)
    case WriteFailed => WriteAddresses
  }

  function Last(s: seq<Step>): Step
    requires s != []
  {
    s[|s| - 1]
  }

  /** `!process.env.MNEMONIC` is false for an unset and for an empty variable. */
  predicate HasMnemonic(m: Option<string>) {
    m.Some? && m.value != ""
  }

  // ---------------------------------------------------------------------
  // The plan: every step a run that never fails attempts, in order.
  // ---------------------------------------------------------------------

  const Prelude: seq<Step> := [ProbeHealth, CheckMnemonic, BuildProviders]

  function KeyPlan(i: nat, circuits: seq<string>): seq<Step> {
    seq(|circuits|, j requires 0 <= j < |circuits| => LoadKey(i, circuits[j]))
  }

  function UnitPlan(i: nat, u: DeploymentUnit): seq<Step> {
    KeyPlan(i, u.circuits) + [BuildTx(i), ProveTx(i), SubmitTx(i)]
  }

  function BatchPlan(units: seq<DeploymentUnit>): seq<Step>
    decreases |units|
  {
    if units == [] then []
    else BatchPlan(units[..|units| - 1]) + UnitPlan(|units| - 1, units[|units| - 1])
  }

  function Plan(units: seq<DeploymentUnit>): seq<Step> {
    Prelude + BatchPlan(units) + [WriteAddresses]
  }

  // ---------------------------------------------------------------------
  // The run as functions of the environment.
  // ---------------------------------------------------------------------

  /** The inner loop of lines 129-134 over the first |circuits| circuits of unit `i`. */
  function LoadKeys(files: KeyFiles, i: nat, ns: string, circuits: seq<string>): (p: Progress<map<string, Key>>)
    ensures |p.steps| <= |circuits|
    ensures p.outcome.Ok? ==> |p.steps| == |circuits|
    ensures p.outcome.Err? ==> p.steps != []
    decreases |circuits|
  {
    if circuits == [] then Progress([], Ok(map[]))
    else
      var n := |circuits| - 1;
      var prev := LoadKeys(files, i, ns, circuits[..n]);
      match prev.outcome
      case Err(_) => prev
      case Ok(keys) =>
        var c := circuits[n];
        match GetVerifierKey(files, c, ns)
        case None => Progress(prev.steps + [LoadKey(i, c)], Err(KeyNotFound(i, c)))
        case Some(key) => Progress(prev.steps + [LoadKey(i, c)], Ok(keys[c := key]))
  }

  /** Build, balance-and-prove, submit (lines 108-120). */
  function Stages(env: Environment, i: nat, u: DeploymentUnit, keys: map<string, Key>): (p: Progress<Address>)
    ensures 1 <= |p.steps| <= 3
    ensures p.outcome.Ok? ==> |p.steps| == 3
  {
    match env.createTx(i, u, keys)
    case None => Progress([BuildTx(i)], Err(BuildFailed(i)))
    case Some(tx) =>
      match env.balanceAndProve(i, tx)
      case None => Progress([BuildTx(i), ProveTx(i)], Err(ProveFailed(i)))
      case Some(proven) =>
        match env.submit(i, proven)
        case None => Progress([BuildTx(i), ProveTx(i), SubmitTx(i)], Err(SubmitFailed(i)))
        case Some(txId) => Progress([BuildTx(i), ProveTx(i), SubmitTx(i)], Ok(txId))
  }

  /** One iteration of the loop of lines 128-145. */
  function DeployUnit(env: Environment, i: nat, u: DeploymentUnit): (d: Progress<Address>)
    ensures 1 <= |d.steps| <= |u.circuits| + 3
    ensures d.outcome.Ok? ==> |d.steps| == |u.circuits| + 3
  {
    var keys := LoadKeys(env.keyFiles, i, ContractDir(u.name), u.circuits);
    match keys.outcome
    case Err(f) => Progress(keys.steps, Err(f))
    case Ok(km) =>
      var st := Stages(env, i, u, km);
      Progress(keys.steps + st.steps, st.outcome)
  }

  /** The loop of lines 128-145 over the first |units| units, from an empty address map. */
  function RunBatch(env: Environment, units: seq<DeploymentUnit>): (b: Progress<map<string, Address>>)
    ensures b.outcome.Ok? ==> |b.steps| >= |units|
    decreases |units|
  {
    if units == [] then Progress([], Ok(map[]))
    else
      var n := |units| - 1;
      var prev := RunBatch(env, units[..n]);
      match prev.outcome
      case Err(_) => prev
      case Ok(addresses) =>
        var d := DeployUnit(env, n, units[n]);
        match d.outcome
        case Err(f) => Progress(prev.steps + d.steps, Err(f))
        case Ok(address) => Progress(prev.steps + d.steps, Ok(addresses[ContractDir(units[n].name) := address]))
  }

  function Aborted(trace: seq<Step>, f: Failure): RunResult {
    RunResult(trace, None, 1, Some(f))
  }

  /**
   * The end of `main` and its `.catch` (lines 144-154): a failed batch
   * exits 1; otherwise the address map is written once and the run exits
   * 0, unless the write fails.
   */
  function Conclude(batch: Progress<map<string, Address>>, writeSucceeds: bool): (r: RunResult)
    ensures r.exitCode == 0 <==> batch.outcome.Ok? && writeSucceeds
    ensures r.exitCode != 0 ==> r.exitCode == 1 && r.written.None?
    ensures r.exitCode == 0 ==> r.written == Some(batch.outcome.value)
  {
    match batch.outcome
    case Err(f) => Aborted(Prelude + batch.steps, f)
    case Ok(addresses) =>
      var trace := Prelude + batch.steps + [WriteAddresses];
      if writeSucceeds then RunResult(trace, Some(addresses), 0, None)
      else Aborted(trace, WriteFailed)
  }

  /** `main()` with its `.catch` (lines 123-154). */
  function Run(env: Environment, units: seq<DeploymentUnit>): (r: RunResult)
    ensures r.exitCode == 0 <==>
      env.proofServerHealthy && HasMnemonic(env.mnemonic) && env.providersReady &&
      RunBatch(env, units).outcome.Ok? && env.writeSucceeds
    ensures r.exitCode != 0 ==> r.exitCode == 1 && r.written.None?
  {
    if !env.proofServerHealthy then Aborted([ProbeHealth], ProofServerDown)
    else if !HasMnemonic(env.mnemonic) then Aborted([ProbeHealth, CheckMnemonic], MissingMnemonic)
    else if !env.providersReady then Aborted(Prelude, ProviderSetupFailed)
    else Conclude(RunBatch(env, units), env.writeSucceeds)
  }

  /** The namespaces of the units, i.e. the keys the address map receives. */
  function Namespaces(units: seq<DeploymentUnit>): set<string>
    decreases |units|
  {
    if units == [] then {}
    else Namespaces(units[..|units| - 1]) + {ContractDir(units[|units| - 1].name)}
  }

  /** No later unit shares the namespace of unit `j`. */
  predicate LastOfNamespace(units: seq<DeploymentUnit>, j: nat)
    requires j < |units|
  {
    forall k :: j < k < |units| ==> ContractDir(units[k].name) != ContractDir(units[j].name)
  }

  // ---------------------------------------------------------------------
  // The driver, imperatively.
  // ---------------------------------------------------------------------

  /** `deployContractWithLogging`: the three awaited wallet-side stages, in order. */
  method DeployContractWithLogging(env: Environment, i: nat, u: DeploymentUnit, verifierKeys: map<string, Key>)
    returns (steps: seq<Step>, outcome: Result<Address, Failure>)
    ensures Progress(steps, outcome) == Stages(env, i, u, verifierKeys)
  {
    steps := [BuildTx(i)];
    var unprovenTx := env.createTx(i, u, verifierKeys);
    if unprovenTx.None? {
      return steps, Err(BuildFailed(i));
    }
    steps := steps + [ProveTx(i)];
    var provenTx := env.balanceAndProve(i, unprovenTx.value);
    if provenTx.None? {
      return steps, Err(ProveFailed(i));
    }
    steps := steps + [SubmitTx(i)];
    var txId := env.submit(i, provenTx.value);
    if txId.None? {
      return steps, Err(SubmitFailed(i));
    }
    outcome := Ok(txId.value);
  }

  /**
   * The inner loop of `main` (lines 129-134): a fresh key map, one strict
   * `getVerifierKey` per circuit in order; the first rejection propagates.
   */
  method LoadUnitKeys(files: KeyFiles, i: nat, contractDir: string, circuits: seq<string>)
    returns (steps: seq<Step>, outcome: Result<map<string, Key>, Failure>)
    ensures Progress(steps, outcome) == LoadKeys(files, i, contractDir, circuits)
  {
    var verifierKeys: map<string, Key> := map[];
    steps := [];
    var j := 0;
    while j < |circuits|
      invariant 0 <= j <= |circuits|
      invariant LoadKeys(files, i, contractDir, circuits[..j]) == Progress(steps, Ok(verifierKeys))
    {
      var circuit := circuits[j];
      var key := GetVerifierKey(files, circuit, contractDir);
      if key.None? {
        LoadAbortsAt(files, i, contractDir, circuits, j);
        return steps + [LoadKey(i, circuit)], Err(KeyNotFound(i, circuit));
      }
      LoadExtends(files, i, contractDir, circuits, j);
      steps := steps + [LoadKey(i, circuit)];
      verifierKeys := verifierKeys[circuit := key.value];
      j := j + 1;
    }
    assert circuits[..j] == circuits;
    outcome := Ok(verifierKeys);
  }

  /**
   * The loop of `main` (lines 128-145): each unit in list order, a fresh
   * key map, the three stages, then the address recorded under the
   * unit's namespace; the first failure propagates.
   */
  method DeployBatch(env: Environment, units: seq<DeploymentUnit>)
    returns (steps: seq<Step>, outcome: Result<map<string, Address>, Failure>)
    ensures Progress(steps, outcome) == RunBatch(env, units)
  {
    var deployedAddresses: map<string, Address> := map[];
    steps := [];
    var i := 0;
    while i < |units|
      invariant 0 <= i <= |units|
      invariant RunBatch(env, units[..i]) == Progress(steps, Ok(deployedAddresses))
    {
      var u := units[i];
      var contractDir := ContractDir(u.name);
      var keySteps, keys := LoadUnitKeys(env.keyFiles, i, contractDir, u.circuits);
      if keys.Err? {
        UnitAbortsInKeys(env, i, u);
        BatchAbortsAt(env, units, i);
        return steps + keySteps, Err(keys.error);
      }
      var stageSteps, deployed := DeployContractWithLogging(env, i, u, keys.value);
      UnitAfterKeys(env, i, u);
      if deployed.Err? {
        BatchAbortsAt(env, units, i);
        return steps + (keySteps + stageSteps), Err(deployed.error);
      }
      BatchExtends(env, units, i);
      deployedAddresses := deployedAddresses[contractDir := deployed.value];
      steps := steps + (keySteps + stageSteps);
      i := i + 1;
    }
    assert units[..i] == units;
    outcome := Ok(deployedAddresses);
  }

  /** `main` with its `.catch`: health check, providers once, the batch, one write at the end. */
  method RunMain(env: Environment, units: seq<DeploymentUnit>) returns (r: RunResult)
    ensures r == Run(env, units)
  {
    if !env.proofServerHealthy {
      return Aborted([ProbeHealth], ProofServerDown);
    }
    if !HasMnemonic(env.mnemonic) {
      return Aborted([ProbeHealth, CheckMnemonic], MissingMnemonic);
    }
    if !env.providersReady {
      return Aborted(Prelude, ProviderSetupFailed);
    }
    var batchSteps, deployedAddresses := DeployBatch(env, units);
    if deployedAddresses.Err? {
      return Aborted(Prelude + batchSteps, deployedAddresses.error);
    }
    var trace := Prelude + batchSteps + [WriteAddresses];
    if !env.writeSucceeds {
      return Aborted(trace, WriteFailed);
    }
    r := RunResult(trace, Some(deployedAddresses.value), 0, None);
  }

  // ---------------------------------------------------------------------
  // One more iteration of each loop.
  // ---------------------------------------------------------------------

  lemma LoadExtends(files: KeyFiles, i: nat, ns: string, circuits: seq<string>, j: nat)
    requires j < |circuits|
    requires LoadKeys(files, i, ns, circuits[..j]).outcome.Ok?
    requires GetVerifierKey(files, circuits[j], ns).Some?
    ensures var prev := LoadKeys(files, i, ns, circuits[..j]);
      LoadKeys(files, i, ns, circuits[..j + 1]) ==
        Progress(prev.steps + [LoadKey(i, circuits[j])],
                 Ok(prev.outcome.value[circuits[j] := GetVerifierKey(files, circuits[j], ns).value]))
  {
    assert circuits[..j + 1][..j] == circuits[..j];
  }

  lemma BatchExtends(env: Environment, units: seq<DeploymentUnit>, i: nat)
    requires i < |units|
    requires RunBatch(env, units[..i]).outcome.Ok?
    requires DeployUnit(env, i, units[i]).outcome.Ok?
    ensures var prev, d := RunBatch(env, units[..i]), DeployUnit(env, i, units[i]);
      RunBatch(env, units[..i + 1]) ==
        Progress(prev.steps + d.steps,
                 Ok(prev.outcome.value[ContractDir(units[i].name) := d.outcome.value]))
  {
    assert units[..i + 1][..i] == units[..i];
  }

  lemma UnitAbortsInKeys(env: Environment, i: nat, u: DeploymentUnit)
    requires LoadKeys(env.keyFiles, i, ContractDir(u.name), u.circuits).outcome.Err?
    ensures var keys := LoadKeys(env.keyFiles, i, ContractDir(u.name), u.circuits);
      DeployUnit(env, i, u) == Progress(keys.steps, Err(keys.outcome.error))
  {
  }

  lemma UnitAfterKeys(env: Environment, i: nat, u: DeploymentUnit)
    requires LoadKeys(env.keyFiles, i, ContractDir(u.name), u.circuits).outcome.Ok?
    ensures var keys := LoadKeys(env.keyFiles, i, ContractDir(u.name), u.circuits);
      var st := Stages(env, i, u, keys.outcome.value);
      DeployUnit(env, i, u) == Progress(keys.steps + st.steps, st.outcome)
  {
  }

  // ---------------------------------------------------------------------
  // Fail-fast: once a prefix fails, the whole loop ends there.
  // ---------------------------------------------------------------------

  lemma {:induction false} LoadFailureSticks(files: KeyFiles, i: nat, ns: string, circuits: seq<string>, j: nat)
    requires j <= |circuits|
    requires LoadKeys(files, i, ns, circuits[..j]).outcome.Err?
    ensures LoadKeys(files, i, ns, circuits) == LoadKeys(files, i, ns, circuits[..j])
    decreases |circuits| - j
  {
    if j < |circuits| {
      var next := circuits[..j + 1];
      assert next[..j] == circuits[..j];
      LoadFailureSticks(files, i, ns, circuits, j + 1);
    } else {
      assert circuits[..j] == circuits;
    }
  }

  /** A missing key file for circuit `j` ends the key loading of unit `i` with `KeyNotFound`. */
  lemma LoadAbortsAt(files: KeyFiles, i: nat, ns: string, circuits: seq<string>, j: nat)
    requires j < |circuits|
    requires LoadKeys(files, i, ns, circuits[..j]).outcome.Ok?
    requires GetVerifierKey(files, circuits[j], ns).None?
    ensures LoadKeys(files, i, ns, circuits) ==
      Progress(LoadKeys(files, i, ns, circuits[..j]).steps + [LoadKey(i, circuits[j])],
               Err(KeyNotFound(i, circuits[j])))
  {
    assert circuits[..j + 1][..j] == circuits[..j];
    LoadFailureSticks(files, i, ns, circuits, j + 1);
  }

  lemma {:induction false} BatchFailureSticks(env: Environment, units: seq<DeploymentUnit>, i: nat)
    requires i <= |units|
    requires RunBatch(env, units[..i]).outcome.Err?
    ensures RunBatch(env, units) == RunBatch(env, units[..i])
    decreases |units| - i
  {
    if i < |units| {
      assert units[..i + 1][..i] == units[..i];
      BatchFailureSticks(env, units, i + 1);
    } else {
      assert units[..i] == units;
    }
  }

  /** A failing unit `i` ends the batch: no later unit changes the outcome. */
  lemma BatchAbortsAt(env: Environment, units: seq<DeploymentUnit>, i: nat)
    requires i < |units|
    requires RunBatch(env, units[..i]).outcome.Ok?
    requires DeployUnit(env, i, units[i]).outcome.Err?
    ensures RunBatch(env, units) ==
      Progress(RunBatch(env, units[..i]).steps + DeployUnit(env, i, units[i]).steps,
               Err(DeployUnit(env, i, units[i]).outcome.error))
  {
    assert units[..i + 1][..i] == units[..i];
    BatchFailureSticks(env, units, i + 1);
  }

  // ---------------------------------------------------------------------
  // Key loading inside the loop: strict, in circuit order, fresh per unit.
  // ---------------------------------------------------------------------

  /**
   * The key map of a unit depends on nothing but the key files, the
   * namespace and the circuit names: it has one entry per distinct circuit
   * name, holding that circuit's file bytes, and it exists exactly when
   * every key file is readable.
   */
  lemma {:induction false} LoadKeysSucceeds(files: KeyFiles, i: nat, ns: string, circuits: seq<string>)
    ensures var p := LoadKeys(files, i, ns, circuits);
      (p.outcome.Ok? <==> forall c :: c in circuits ==> KeyPath(ns, c) in files) &&
      (p.outcome.Ok? ==>
        (p.outcome.value.Keys == set c | c in circuits) &&
        (forall c :: c in p.outcome.value ==>
          KeyPath(ns, c) in files && p.outcome.value[c] == files[KeyPath(ns, c)]))
    decreases |circuits|
  {
    if circuits != [] {
      var n := |circuits| - 1;
      LoadKeysSucceeds(files, i, ns, circuits[..n]);
      assert circuits == circuits[..n] + [circuits[n]];
      assert forall c :: c in circuits <==> c in circuits[..n] || c == circuits[n];
    }
  }

  /** Key loading that succeeded found every circuit's key file. */
  lemma {:induction false} LoadedAllPresent(files: KeyFiles, i: nat, ns: string, circuits: seq<string>)
    requires LoadKeys(files, i, ns, circuits).outcome.Ok?
    ensures forall j :: 0 <= j < |circuits| ==> KeyPath(ns, circuits[j]) in files
    decreases |circuits|
  {
    if circuits != [] {
      var n := |circuits| - 1;
      LoadedAllPresent(files, i, ns, circuits[..n]);
      assert forall j :: 0 <= j < n ==> circuits[..n][j] == circuits[j];
    }
  }

  /**
   * Key loading attempts the circuits in order and stops at the first whose
   * file is unreadable: the steps are a prefix of the key plan, all of it on
   * success, and on failure they end with the missing circuit, every earlier
   * one having loaded.
   */
  lemma {:induction false} LoadKeysFollowsPlan(files: KeyFiles, i: nat, ns: string, circuits: seq<string>)
    ensures var p := LoadKeys(files, i, ns, circuits);
      p.steps <= KeyPlan(i, circuits) &&
      (p.outcome.Ok? ==> p.steps == KeyPlan(i, circuits)) &&
      (p.outcome.Err? ==>
        var k := |p.steps| - 1;
        0 <= k < |circuits| &&
        p.outcome.error == KeyNotFound(i, circuits[k]) &&
        KeyPath(ns, circuits[k]) !in files &&
        forall j :: 0 <= j < k ==> KeyPath(ns, circuits[j]) in files)
    decreases |circuits|
  {
    if circuits != [] {
      var n := |circuits| - 1;
      LoadKeysFollowsPlan(files, i, ns, circuits[..n]);
      if LoadKeys(files, i, ns, circuits[..n]).outcome.Ok? {
        LoadedAllPresent(files, i, ns, circuits[..n]);
      }
      assert forall j :: 0 <= j < n ==> circuits[..n][j] == circuits[j];
      assert KeyPlan(i, circuits) == KeyPlan(i, circuits[..n]) + [LoadKey(i, circuits[n])];
    }
  }

  /**
   * The loop's strict loading and the best-effort `getVerifierKeys` agree
   * exactly when nothing is missing: the loop succeeds iff the aggregate
   * keeps every name, and then the aggregate lists the loop's keys in
   * circuit order.  When a file is missing the aggregate only shrinks,
   * while the loop aborts.
   */
  lemma StrictLoadVersusAggregate(files: KeyFiles, i: nat, ns: string, circuits: seq<string>)
    ensures var p := LoadKeys(files, i, ns, circuits);
      var keys := GetVerifierKeys(files, circuits, ns);
      (p.outcome.Ok? <==> |keys| == |circuits|) &&
      (p.outcome.Ok? ==> forall j :: 0 <= j < |circuits| ==>
        circuits[j] in p.outcome.value && keys[j] == p.outcome.value[circuits[j]])
  {
    LoadKeysSucceeds(files, i, ns, circuits);
    GetVerifierKeysCount(files, circuits, ns);
    GetVerifierKeysAreLoadedKeys(files, circuits, ns);
    if LoadKeys(files, i, ns, circuits).outcome.Ok? {
      PresentAll(files, circuits, ns);
    }
  }

  lemma {:induction false} PresentAll(files: KeyFiles, names: seq<string>, ns: string)
    requires forall n :: n in names ==> KeyPath(ns, n) in files
    ensures Present(files, names, ns) == names
  {
    if names != [] {
      PresentAll(files, names[1..], ns);
    }
  }

  // ---------------------------------------------------------------------
  // The stages of one unit and of the batch follow the plan.
  // ---------------------------------------------------------------------

  /**
   * Build precedes balance-and-prove precedes submit; each stage runs only
   * if the one before succeeded; success means all three succeeded and
   * yields the submitted transaction's id.
   */
  lemma StagesInOrder(env: Environment, i: nat, u: DeploymentUnit, keys: map<string, Key>)
    ensures var p := Stages(env, i, u, keys);
      p.steps <= [BuildTx(i), ProveTx(i), SubmitTx(i)] && p.steps != [] &&
      (p.outcome.Err? ==> Last(p.steps) == StepOf(p.outcome.error)) &&
      (p.outcome.Ok? <==>
        env.createTx(i, u, keys).Some? &&
        env.balanceAndProve(i, env.createTx(i, u, keys).value).Some? &&
        env.submit(i, env.balanceAndProve(i, env.createTx(i, u, keys).value).value).Some?) &&
      (p.outcome.Ok? ==>
        p.steps == [BuildTx(i), ProveTx(i), SubmitTx(i)] &&
        p.outcome.value == env.submit(i, env.balanceAndProve(i, env.createTx(i, u, keys).value).value).value)
    ensures var p := Stages(env, i, u, keys);
      (ProveTx(i) in p.steps ==> env.createTx(i, u, keys).Some?) &&
      (SubmitTx(i) in p.steps ==>
        env.createTx(i, u, keys).Some? && env.balanceAndProve(i, env.createTx(i, u, keys).value).Some?)
    ensures env.createTx(i, u, keys).None? ==>
      Stages(env, i, u, keys) == Progress([BuildTx(i)], Err(BuildFailed(i)))
    ensures env.createTx(i, u, keys).Some? && env.balanceAndProve(i, env.createTx(i, u, keys).value).None? ==>
      Stages(env, i, u, keys) == Progress([BuildTx(i), ProveTx(i)], Err(ProveFailed(i)))
    ensures (env.createTx(i, u, keys).Some? && env.balanceAndProve(i, env.createTx(i, u, keys).value).Some? &&
             env.submit(i, env.balanceAndProve(i, env.createTx(i, u, keys).value).value).None?) ==>
      Stages(env, i, u, keys) == Progress([BuildTx(i), ProveTx(i), SubmitTx(i)], Err(SubmitFailed(i)))
  {
  }

  lemma PrefixExtend(a: seq<Step>, b: seq<Step>, c: seq<Step>)
    requires b <= c
    ensures a + b <= a + c
  {
    assert (a + c)[..|a + b|] == a + b;
  }

  /** The steps of one unit: its keys in circuit order, then build, prove, submit; a failure is the last step. */
  lemma DeployUnitFollowsPlan(env: Environment, i: nat, u: DeploymentUnit)
    ensures var d := DeployUnit(env, i, u);
      d.steps <= UnitPlan(i, u) &&
      (d.outcome.Ok? ==> d.steps == UnitPlan(i, u)) &&
      (d.outcome.Err? ==> d.steps != [] && Last(d.steps) == StepOf(d.outcome.error))
  {
    var ns := ContractDir(u.name);
    var keys := LoadKeys(env.keyFiles, i, ns, u.circuits);
    LoadKeysFollowsPlan(env.keyFiles, i, ns, u.circuits);
    var tail := [BuildTx(i), ProveTx(i), SubmitTx(i)];
    if keys.outcome.Err? {
      assert UnitPlan(i, u)[..|keys.steps|] == KeyPlan(i, u.circuits)[..|keys.steps|];
    } else {
      StagesInOrder(env, i, u, keys.outcome.value);
      PrefixExtend(keys.steps, Stages(env, i, u, keys.outcome.value).steps, tail);
    }
  }

  /**
   * The batch attempts its units in list order, each one's steps as its
   * unit plan, and stops at the first failure, which is its last step.
   */
  lemma {:induction false} BatchFollowsPlan(env: Environment, units: seq<DeploymentUnit>)
    ensures var b := RunBatch(env, units);
      b.steps <= BatchPlan(units) &&
      (b.outcome.Ok? ==> b.steps == BatchPlan(units)) &&
      (b.outcome.Err? ==> b.steps != [] && Last(b.steps) == StepOf(b.outcome.error))
    decreases |units|
  {
    if units != [] {
      var n := |units| - 1;
      var prev := RunBatch(env, units[..n]);
      BatchFollowsPlan(env, units[..n]);
      if prev.outcome.Ok? {
        DeployUnitFollowsPlan(env, n, units[n]);
        PrefixExtend(prev.steps, DeployUnit(env, n, units[n]).steps, UnitPlan(n, units[n]));
      } else {
        assert BatchPlan(units)[..|prev.steps|] == BatchPlan(units[..n])[..|prev.steps|];
      }
    }
  }

  // ---------------------------------------------------------------------
  // The whole run.
  // ---------------------------------------------------------------------

  /**
   * Concluding a batch that followed its plan `bp` yields a prefix of the
   * run's plan, ending at the failed step on failure, and exits 0 exactly
   * when it wrote the map.
   */
  lemma ConcludeFollowsPlan(batch: Progress<map<string, Address>>, writeSucceeds: bool, bp: seq<Step>)
    requires batch.steps <= bp
    requires batch.outcome.Ok? ==> batch.steps == bp
    requires batch.outcome.Err? ==> batch.steps != [] && Last(batch.steps) == StepOf(batch.outcome.error)
    requires forall p :: 0 <= p < |bp| ==> IsUnitStep(bp[p])
    ensures var r := Conclude(batch, writeSucceeds);
      var plan := Prelude + bp + [WriteAddresses];
      r.trace <= plan &&
      (r.exitCode == 0 <==> r.failure.None?) &&
      (r.written.Some? <==> r.failure.None?) &&
      (r.failure.None? ==> r.trace == plan && r.written == Some(batch.outcome.value)) &&
      (r.failure.Some? ==> r.exitCode == 1 && r.trace != [] && Last(r.trace) == StepOf(r.failure.value)) &&
      (r.trace == plan <==> r.failure.None? || r.failure == Some(WriteFailed))
    ensures var r := Conclude(batch, writeSucceeds);
      (batch.outcome.Err? ==> r.failure == Some(batch.outcome.error) && r.written.None?) &&
      (batch.outcome.Ok? && !writeSucceeds ==> r.failure == Some(WriteFailed) && r.written.None?) &&
      (batch.outcome.Ok? && writeSucceeds ==> r.exitCode == 0 && r.written == Some(batch.outcome.value))
  {
    PrefixExtend(Prelude, batch.steps, bp + [WriteAddresses]);
    assert Prelude + (bp + [WriteAddresses]) == Prelude + bp + [WriteAddresses];
    if batch.outcome.Err? {
      var r := Conclude(batch, writeSucceeds);
      assert Last(r.trace) == Last(batch.steps);
      assert Last(batch.steps) == bp[|batch.steps| - 1];
    }
  }

  /**
   * Every run attempts a prefix of the plan.  It exits 0 exactly when it
   * wrote the address file, and then it attempted the whole plan; a failed
   * run stops at the step that failed, so no later unit is attempted and
   * the file is not written.
   */
  lemma RunFollowsPlan(env: Environment, units: seq<DeploymentUnit>)
    ensures var r := Run(env, units);
      r.trace <= Plan(units) &&
      (r.exitCode == 0 <==> r.failure.None?) &&
      (r.written.Some? <==> r.failure.None?) &&
      (r.failure.None? ==> r.trace == Plan(units)) &&
      (r.failure.Some? ==> r.exitCode == 1 && r.trace != [] && Last(r.trace) == StepOf(r.failure.value)) &&
      (r.trace == Plan(units) <==> r.failure.None? || r.failure == Some(WriteFailed))
  {
    if env.proofServerHealthy && HasMnemonic(env.mnemonic) && env.providersReady {
      BatchFollowsPlan(env, units);
      BatchPlanUnitSteps(units);
      ConcludeFollowsPlan(RunBatch(env, units), env.writeSucceeds, BatchPlan(units));
    }
  }

  /**
   * The first `i` units succeed together exactly when each of them, run on
   * its own, succeeds.
   */
  lemma {:induction false} PrefixSucceeds(env: Environment, units: seq<DeploymentUnit>, i: nat)
    requires i <= |units|
    ensures RunBatch(env, units[..i]).outcome.Ok? <==>
      forall j :: 0 <= j < i ==> DeployUnit(env, j, units[j]).outcome.Ok?
  {
    if i > 0 {
      var n := i - 1;
      assert units[..i][..n] == units[..n];
      assert units[..i][n] == units[n];
      PrefixSucceeds(env, units, n);
    }
  }

  /** The batch succeeds exactly when every unit's keys, build, proof and submission succeed. */
  lemma BatchSucceeds(env: Environment, units: seq<DeploymentUnit>)
    ensures RunBatch(env, units).outcome.Ok? <==>
      forall j :: 0 <= j < |units| ==> DeployUnit(env, j, units[j]).outcome.Ok?
  {
    assert units[..|units|] == units;
    PrefixSucceeds(env, units, |units|);
  }

  /**
   * A failed prefix failed with the error of its first failing unit, every
   * earlier unit having succeeded.
   */
  lemma {:induction false} PrefixFirstFailure(env: Environment, units: seq<DeploymentUnit>, i: nat)
    requires i <= |units|
    requires RunBatch(env, units[..i]).outcome.Err?
    ensures exists j :: (0 <= j < i &&
      (forall k :: 0 <= k < j ==> DeployUnit(env, k, units[k]).outcome.Ok?) &&
      DeployUnit(env, j, units[j]).outcome.Err? &&
      RunBatch(env, units[..i]).outcome.error == DeployUnit(env, j, units[j]).outcome.error)
  {
    var n := i - 1;
    assert units[..i][..n] == units[..n];
    assert units[..i][n] == units[n];
    if RunBatch(env, units[..n]).outcome.Err? {
      PrefixFirstFailure(env, units, n);
    } else {
      PrefixSucceeds(env, units, n);
    }
  }

  /** A failed batch reports the failure of its first failing unit. */
  lemma BatchFirstFailure(env: Environment, units: seq<DeploymentUnit>)
    requires RunBatch(env, units).outcome.Err?
    ensures exists j :: (0 <= j < |units| &&
      (forall k :: 0 <= k < j ==> DeployUnit(env, k, units[k]).outcome.Ok?) &&
      DeployUnit(env, j, units[j]).outcome.Err? &&
      RunBatch(env, units).outcome.error == DeployUnit(env, j, units[j]).outcome.error)
  {
    assert units[..|units|] == units;
    PrefixFirstFailure(env, units, |units|);
  }

  /**
   * A run exits 0 exactly when the proof server is healthy, the mnemonic
   * is set, the providers are built, every unit deploys and the write
   * succeeds; any other run exits 1 and writes nothing.
   */
  lemma RunSucceeds(env: Environment, units: seq<DeploymentUnit>)
    ensures Run(env, units).exitCode == 0 <==>
      env.proofServerHealthy && HasMnemonic(env.mnemonic) && env.providersReady && env.writeSucceeds &&
      forall j :: 0 <= j < |units| ==> DeployUnit(env, j, units[j]).outcome.Ok?
    ensures Run(env, units).exitCode != 0 ==> Run(env, units).exitCode == 1 && Run(env, units).written.None?
  {
    BatchSucceeds(env, units);
  }

  /**
   * Which error ends a failed run: provider construction failing after
   * both gates passed, else the batch's error, else the write.
   */
  lemma RunFailure(env: Environment, units: seq<DeploymentUnit>)
    ensures env.proofServerHealthy && HasMnemonic(env.mnemonic) && !env.providersReady ==>
      Run(env, units) == RunResult(Prelude, None, 1, Some(ProviderSetupFailed))
    ensures (env.proofServerHealthy && HasMnemonic(env.mnemonic) && env.providersReady &&
             RunBatch(env, units).outcome.Err?) ==>
      Run(env, units).failure == Some(RunBatch(env, units).outcome.error) && Run(env, units).written.None?
    ensures (env.proofServerHealthy && HasMnemonic(env.mnemonic) && env.providersReady &&
             RunBatch(env, units).outcome.Ok? && !env.writeSucceeds) ==>
      Run(env, units).failure == Some(WriteFailed) && Run(env, units).written.None?
  {
  }

  /** A failed health probe aborts first: no mnemonic check, no providers, no unit, no write. */
  lemma HealthGate(env: Environment, units: seq<DeploymentUnit>)
    requires !env.proofServerHealthy
    ensures var r := Run(env, units);
      r.trace == [ProbeHealth] && r.written.None? && r.exitCode == 1 && r.failure == Some(ProofServerDown)
  {
  }

  /**
   * The mnemonic is checked only after the health probe passed, and a
   * missing (or empty) mnemonic aborts before the wallet and providers are
   * built.
   */
  lemma MnemonicGate(env: Environment, units: seq<DeploymentUnit>)
    ensures var r := Run(env, units);
      (CheckMnemonic in r.trace ==> env.proofServerHealthy) &&
      (BuildProviders in r.trace ==> env.proofServerHealthy && HasMnemonic(env.mnemonic)) &&
      (env.proofServerHealthy && !HasMnemonic(env.mnemonic) ==>
        r.trace == [ProbeHealth, CheckMnemonic] && r.written.None? && r.exitCode == 1 &&
        r.failure == Some(MissingMnemonic))
  {
    var r := Run(env, units);
    RunFollowsPlan(env, units);
    if !env.proofServerHealthy {
      assert r.trace == [ProbeHealth];
    } else if !HasMnemonic(env.mnemonic) {
      assert r.trace == [ProbeHealth, CheckMnemonic];
    }
  }

  lemma {:induction false} BatchPlanUnitSteps(units: seq<DeploymentUnit>)
    ensures forall p :: 0 <= p < |BatchPlan(units)| ==>
      IsUnitStep(BatchPlan(units)[p]) && BatchPlan(units)[p].unit < |units|
    decreases |units|
  {
    if units != [] {
      BatchPlanUnitSteps(units[..|units| - 1]);
    }
  }

  /** Units are attempted in list order: the unit steps of the plan never go back to an earlier unit. */
  lemma {:induction false} BatchPlanInUnitOrder(units: seq<DeploymentUnit>)
    ensures forall p, q ::
      (0 <= p < q < |BatchPlan(units)| && IsUnitStep(BatchPlan(units)[p]) && IsUnitStep(BatchPlan(units)[q])) ==>
      BatchPlan(units)[p].unit <= BatchPlan(units)[q].unit
    decreases |units|
  {
    if units != [] {
      var n := |units| - 1;
      var front, back := BatchPlan(units[..n]), UnitPlan(n, units[n]);
      BatchPlanInUnitOrder(units[..n]);
      BatchPlanUnitSteps(units[..n]);
      assert BatchPlan(units) == front + back;
      assert forall q :: 0 <= q < |back| ==> back[q].unit == n;
    }
  }

  /**
   * Any prefix of the plan builds the providers only as its third step,
   * writes the address file only as its last step, and visits the units
   * in list order.
   */
  lemma PlanPrefixOrder(units: seq<DeploymentUnit>, t: seq<Step>)
    requires t <= Plan(units)
    ensures (forall p :: 0 <= p < |t| && t[p] == BuildProviders ==> p == 2) &&
      (forall p :: 0 <= p < |t| && t[p] == WriteAddresses ==> p == |Plan(units)| - 1) &&
      (forall p, q :: 0 <= p < q < |t| && IsUnitStep(t[p]) && IsUnitStep(t[q]) ==> t[p].unit <= t[q].unit)
  {
    var plan := Plan(units);
    var bp := BatchPlan(units);
    BatchPlanUnitSteps(units);
    BatchPlanInUnitOrder(units);
    assert forall p :: 0 <= p < |t| ==> t[p] == plan[p];
    assert forall p :: 3 <= p < 3 + |bp| ==> plan[p] == bp[p - 3];
    assert forall p :: 0 <= p < |plan| && IsUnitStep(plan[p]) ==> 3 <= p < 3 + |bp|;
  }

  /**
   * In every run the providers are built at most once, the address file is
   * written at most once and as the very last step, and the unit steps
   * visit the units in list order.
   */
  lemma RunStepsOnceAndInOrder(env: Environment, units: seq<DeploymentUnit>)
    ensures var t := Run(env, units).trace;
      (forall p :: 0 <= p < |t| && t[p] == BuildProviders ==> p == 2) &&
      (forall p :: 0 <= p < |t| && t[p] == WriteAddresses ==> p == |t| - 1) &&
      (forall p, q :: 0 <= p < q < |t| && IsUnitStep(t[p]) && IsUnitStep(t[q]) ==> t[p].unit <= t[q].unit)
  {
    var t := Run(env, units).trace;
    RunFollowsPlan(env, units);
    PlanPrefixOrder(units, t);
  }

  // ---------------------------------------------------------------------
  // The address map.
  // ---------------------------------------------------------------------

  /** After the first `i` units succeeded, the map's keys are their namespaces. */
  lemma {:induction false} PrefixKeys(env: Environment, units: seq<DeploymentUnit>, i: nat)
    requires i <= |units|
    requires RunBatch(env, units[..i]).outcome.Ok?
    ensures RunBatch(env, units[..i]).outcome.value.Keys == Namespaces(units[..i])
  {
    if i > 0 {
      var n := i - 1;
      assert units[..i][..n] == units[..n];
      PrefixKeys(env, units, n);
    }
  }

  /**
   * After the first `i` units succeeded, each namespace holds the
   * transaction id of the last of them with that namespace: a later unit
   * overwrites an earlier one.
   */
  lemma {:induction false} PrefixAddresses(env: Environment, units: seq<DeploymentUnit>, i: nat)
    requires i <= |units|
    requires RunBatch(env, units[..i]).outcome.Ok?
    ensures var m := RunBatch(env, units[..i]).outcome.value;
      forall j :: 0 <= j < i && (forall k :: j < k < i ==> ContractDir(units[k].name) != ContractDir(units[j].name)) ==>
        ContractDir(units[j].name) in m &&
        DeployUnit(env, j, units[j]).outcome.Ok? &&
        m[ContractDir(units[j].name)] == DeployUnit(env, j, units[j]).outcome.value
  {
    if i > 0 {
      var n := i - 1;
      assert units[..i][..n] == units[..n];
      assert units[..i][n] == units[n];
      PrefixAddresses(env, units, n);
    }
  }

  /**
   * After a successful batch every unit was deployed, the map's keys are
   * the units' namespaces, and each namespace holds the transaction id of
   * the last unit with that namespace.
   */
  lemma BatchAddresses(env: Environment, units: seq<DeploymentUnit>)
    requires RunBatch(env, units).outcome.Ok?
    ensures var m := RunBatch(env, units).outcome.value;
      m.Keys == Namespaces(units) &&
      forall j :: 0 <= j < |units| ==>
        DeployUnit(env, j, units[j]).outcome.Ok? &&
        (LastOfNamespace(units, j) ==>
          ContractDir(units[j].name) in m &&
          m[ContractDir(units[j].name)] == DeployUnit(env, j, units[j]).outcome.value)
  {
    assert units[..|units|] == units;
    PrefixKeys(env, units, |units|);
    PrefixSucceeds(env, units, |units|);
    PrefixAddresses(env, units, |units|);
  }

  lemma {:induction false} NamespacesBound(units: seq<DeploymentUnit>)
    ensures |Namespaces(units)| <= |units|
    ensures (forall j, k :: 0 <= j < k < |units| ==> ContractDir(units[j].name) != ContractDir(units[k].name))
      ==> |Namespaces(units)| == |units|
    decreases |units|
  {
    if units != [] {
      var n := |units| - 1;
      var front := units[..n];
      NamespacesBound(front);
      assert forall j :: 0 <= j < n ==> front[j] == units[j];
      if forall j, k :: 0 <= j < k < |units| ==> ContractDir(units[j].name) != ContractDir(units[k].name) {
        NamespacesMembers(front);
        assert ContractDir(units[n].name) !in Namespaces(front);
      }
    }
  }

  lemma {:induction false} NamespacesMembers(units: seq<DeploymentUnit>)
    ensures forall ns :: ns in Namespaces(units) ==> exists j :: 0 <= j < |units| && ContractDir(units[j].name) == ns
    decreases |units|
  {
    if units != [] {
      var n := |units| - 1;
      NamespacesMembers(units[..n]);
      assert forall j :: 0 <= j < n ==> units[..n][j] == units[j];
    }
  }

  /**
   * The file written by a successful run maps each unit's namespace to the
   * transaction id of the last unit with that namespace, and holds at most
   * one entry per unit.
   */
  lemma {:induction false} RunAddresses(env: Environment, units: seq<DeploymentUnit>)
    requires Run(env, units).exitCode == 0
    ensures var m := Run(env, units).written.value;
      m.Keys == Namespaces(units) && |m| <= |units| &&
      forall j :: 0 <= j < |units| && LastOfNamespace(units, j) ==>
        ContractDir(units[j].name) in m &&
        DeployUnit(env, j, units[j]).outcome.Ok? &&
        m[ContractDir(units[j].name)] == DeployUnit(env, j, units[j]).outcome.value
  {
    var b := RunBatch(env, units);
    assert b.outcome.Ok? && Run(env, units).written == Some(b.outcome.value);
    BatchAddresses(env, units);
    NamespacesBound(units);
    assert |b.outcome.value| == |b.outcome.value.Keys|;
  }

  /** "KYC Light" keeps its keys under `kyc_light`, the directory of its module (line 12). */
  lemma KycLightNamespace()
    ensures ContractDir(Contracts[0].name) == Contracts[0].contractModule == "kyc_light"
  {
    ContractDirIs("KYC Light", 3, "kyc_light");
  }

  /** "DID Light" keeps its keys under `did_light` (line 13). */
  lemma DidLightNamespace()
    ensures ContractDir(Contracts[1].name) == Contracts[1].contractModule == "did_light"
  {
    ContractDirIs("DID Light", 3, "did_light");
  }

  /** "AMM Light" keeps its keys under `amm_light` (line 14). */
  lemma AmmLightNamespace()
    ensures ContractDir(Contracts[2].name) == Contracts[2].contractModule == "amm_light"
  {
    ContractDirIs("AMM Light", 3, "amm_light");
  }

  /** "TrustPoints Light" keeps its keys under `trustpoints_light` (line 15). */
  lemma TrustPointsLightNamespace()
    ensures ContractDir(Contracts[3].name) == Contracts[3].contractModule == "trustpoints_light"
  {
    ContractDirIs("TrustPoints Light", 11, "trustpoints_light");
  }

  /**
   * The four hard-coded contracts have four different namespaces, so none
   * of their addresses overwrites another's.
   */
  lemma ContractsDistinct()
    ensures var ns := ContractDir(Contracts[0].name);
      ns != ContractDir(Contracts[1].name) && ns != ContractDir(Contracts[2].name) && ns != ContractDir(Contracts[3].name)
    ensures var ns := ContractDir(Contracts[1].name);
      ns != ContractDir(Contracts[2].name) && ns != ContractDir(Contracts[3].name)
    ensures ContractDir(Contracts[2].name) != ContractDir(Contracts[3].name)
  {
    KycLightNamespace();
    DidLightNamespace();
    AmmLightNamespace();
    TrustPointsLightNamespace();
  }
}
