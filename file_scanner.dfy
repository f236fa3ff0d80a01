/** The scan stage: a policy engine per engine type, built lazily from the
    local cache's artifacts and memoised for the process lifetime, and the
    evaluation of every parsed document by the engine of its engine type. */
module FileScanner {
  import opened IacTypes

  /** One entry of the array the OPA module returns from `evaluate`. */
  datatype EvaluationResult = EvaluationResult(result: seq<PolicyMetadata>)

  /** A compiled policy module: `setData` configures it with the policy
      metadata and may raise; `evaluate` evaluates an input document against
      the data it was configured with and may raise. */
  datatype PolicyModule = PolicyModule(
    setData: Json -> Outcome<string>,
    evaluate: (Json, Json) -> Result<seq<EvaluationResult>, string>)

  /** A loaded policy module together with the metadata passed to `setData`. */
  datatype OpaWasmInstance = OpaWasmInstance(policy: PolicyModule, data: Json)
  {
    function Evaluate(input: Json): Result<seq<EvaluationResult>, string> {
      policy.evaluate(data, input)
    }
  }

  /** The environment a policy engine is built from: the local cache's
      directory and per-engine artifact paths, file reads, JSON parsing of
      the metadata and loading of the compiled module. */
  datatype LocalCache = LocalCache(
    policyEngineDir: string,
    localCachePath: EngineType -> (string, string),
    readFile: string -> Result<seq<bv8>, string>,
    parseJson: seq<bv8> -> Result<Json, string>,
    loadPolicy: seq<bv8> -> Result<PolicyModule, string>)

  /** The guarded part of `buildPolicyEngine`: read the module, read and
      parse the metadata, load the module and configure it with the
      metadata. Any step that raises fails the whole build with the engine
      directory attached. */
  function LoadOpaInstance(cache: LocalCache, engineType: EngineType): (r: Result<OpaWasmInstance, Error>)
    ensures r.Success? <==>
      var (corePath, metaPath) := cache.localCachePath(engineType);
      cache.readFile(corePath).Success? && cache.readFile(metaPath).Success? &&
      cache.parseJson(cache.readFile(metaPath).value).Success? &&
      cache.loadPolicy(cache.readFile(corePath).value).Success? &&
      cache.loadPolicy(cache.readFile(corePath).value).value.setData(
        cache.parseJson(cache.readFile(metaPath).value).value).Pass?
    ensures r.Success? ==>
      var (corePath, metaPath) := cache.localCachePath(engineType);
      r.value.policy == cache.loadPolicy(cache.readFile(corePath).value).value &&
      r.value.data == cache.parseJson(cache.readFile(metaPath).value).value
    ensures r.Failure? ==> r.error.PolicyEngineBuildFailed? && r.error.dir == cache.policyEngineDir
  {
    var (corePath, metaPath) := cache.localCachePath(engineType);
    match cache.readFile(corePath)
    case Failure(cause) => Failure(PolicyEngineBuildFailed(cache.policyEngineDir, cause))
    case Success(wasmFile) =>
      match cache.readFile(metaPath)
      case Failure(cause) => Failure(PolicyEngineBuildFailed(cache.policyEngineDir, cause))
      case Success(policyMetaData) =>
        match cache.parseJson(policyMetaData)
        case Failure(cause) => Failure(PolicyEngineBuildFailed(cache.policyEngineDir, cause))
        case Success(policyMetadataAsJson) =>
          match cache.loadPolicy(wasmFile)
          case Failure(cause) => Failure(PolicyEngineBuildFailed(cache.policyEngineDir, cause))
          case Success(policy) =>
            match policy.setData(policyMetadataAsJson)
            case Fail(cause) => Failure(PolicyEngineBuildFailed(cache.policyEngineDir, cause))
            case Pass => Success(OpaWasmInstance(policy, policyMetadataAsJson))
  }

  /** The TypeError raised when `evaluate` returns no entry and `[0].result`
      is read from `undefined`. */
  const NoEvaluationResult: string := "TypeError: Cannot read property 'result' of undefined"

  /** An evaluator for one engine type; never changed after construction. */
  class PolicyEngine {
    const opaWasmInstance: OpaWasmInstance

    constructor (opaWasmInstance: OpaWasmInstance)
      ensures this.opaWasmInstance == opaWasmInstance
    {
      this.opaWasmInstance := opaWasmInstance;
    }

    /** The violations of the first evaluation entry. */
    function Evaluate(data: Json): (r: Result<seq<PolicyMetadata>, string>)
      ensures r.Success? <==> opaWasmInstance.Evaluate(data).Success? && |opaWasmInstance.Evaluate(data).value| > 0
      ensures r.Success? ==> r.value == opaWasmInstance.Evaluate(data).value[0].result
    {
      match opaWasmInstance.Evaluate(data)
      case Failure(cause) => Failure(cause)
      case Success(results) =>
        if |results| == 0 then Failure(NoEvaluationResult) else Success(results[0].result)
    }

    /** The parsed document, unchanged, with the violated policies attached;
      an evaluator failure becomes `PolicyEngineRunFailed`. */
    function ScanFile(iacFile: ParsedIacFile): (r: Result<IacFileScanResult, Error>)
      ensures r.Success? <==> Evaluate(iacFile.jsonContent).Success?
      ensures r.Success? ==>
        r.value.Parsed() == iacFile && r.value.violatedPolicies == Evaluate(iacFile.jsonContent).value
      ensures r.Failure? ==> r == Failure(PolicyEngineRunFailed(Evaluate(iacFile.jsonContent).error))
    {
      match Evaluate(iacFile.jsonContent)
      case Failure(cause) => Failure(PolicyEngineRunFailed(cause))
      case Success(violatedPolicies) =>
        Success(IacFileScanResult(
          iacFile.filePath, iacFile.fileType, iacFile.fileContent,
          iacFile.jsonContent, iacFile.engineType, iacFile.docId, violatedPolicies))
    }
  }

  /** Both slots of an engine map hold an engine. */
  predicate AllBuilt(engines: map<EngineType, PolicyEngine?>) {
    Kubernetes in engines && Terraform in engines &&
    engines[Kubernetes] != null && engines[Terraform] != null
  }

  /** The engine an engine map holds for `engineType`. */
  function EngineFor(engines: map<EngineType, PolicyEngine?>, engineType: EngineType): PolicyEngine
    requires AllBuilt(engines)
  {
    match engineType
    case Kubernetes => engines[Kubernetes]
    case Terraform => engines[Terraform]
  }

  /** `Promise.all` over the per-file scans, in input order: one result per
      file at the file's position, or the failure of the first file whose
      scan raises. */
  function ScanAll(engines: map<EngineType, PolicyEngine?>, files: seq<ParsedIacFile>): (r: Result<seq<IacFileScanResult>, Error>)
    requires AllBuilt(engines)
    ensures r.Success? <==>
      forall i :: 0 <= i < |files| ==> EngineFor(engines, files[i].engineType).ScanFile(files[i]).Success?
    ensures r.Success? ==>
      |r.value| == |files| &&
      forall i :: 0 <= i < |files| ==>
        r.value[i] == EngineFor(engines, files[i].engineType).ScanFile(files[i]).value &&
        r.value[i].Parsed() == files[i]
    ensures r.Failure? ==>
      exists i :: 0 <= i < |files| && EngineFor(engines, files[i].engineType).ScanFile(files[i]) == Failure(r.error) &&
        forall j :: 0 <= j < i ==> EngineFor(engines, files[j].engineType).ScanFile(files[j]).Success?
  {
    if files == [] then Success([])
    else
      match EngineFor(engines, files[0].engineType).ScanFile(files[0])
      case Failure(e) => Failure(e)
      case Success(first) =>
        match ScanAll(engines, files[1..])
        case Failure(e) => Failure(e)
        case Success(rest) => Success([first] + rest)
  }

  /** What warming does to a cache whose slots are `slots`: build the
      Kubernetes engine if missing, then the Terraform engine if missing,
      stopping at the first build that fails. */
  function WarmOutcome(slots: map<EngineType, PolicyEngine?>, cache: LocalCache): (r: Outcome<Error>)
    requires Kubernetes in slots && Terraform in slots
    ensures AllBuilt(slots) ==> r == Pass
    ensures r.Fail? ==> r.error.PolicyEngineBuildFailed? && r.error.dir == cache.policyEngineDir
  {
    if slots[Kubernetes] == null && LoadOpaInstance(cache, Kubernetes).Failure? then
      Fail(LoadOpaInstance(cache, Kubernetes).error)
    else if slots[Terraform] == null && LoadOpaInstance(cache, Terraform).Failure? then
      Fail(LoadOpaInstance(cache, Terraform).error)
    else
      Pass
  }

  /** A cache change in which no filled slot was emptied or replaced. */
  ghost predicate SlotsOnlyFilled(before: map<EngineType, PolicyEngine?>, after: map<EngineType, PolicyEngine?>) {
    before.Keys == after.Keys &&
    forall e :: e in before && before[e] != null ==> after[e] == before[e]
  }

  /** `buildPolicyEngine`: a fresh engine over the loaded instance, or the
      build failure. */
  method BuildPolicyEngine(cache: LocalCache, engineType: EngineType) returns (r: Result<PolicyEngine, Error>)
    ensures r.Success? <==> LoadOpaInstance(cache, engineType).Success?
    ensures r.Success? ==> fresh(r.value) && r.value.opaWasmInstance == LoadOpaInstance(cache, engineType).value
    ensures r.Failure? ==> r.error == LoadOpaInstance(cache, engineType).error
  {
    match LoadOpaInstance(cache, engineType)
    case Failure(err) =>
      r := Failure(err);
    case Success(opaWasmInstance) =>
      var engine := new PolicyEngine(opaWasmInstance);
      r := Success(engine);
  }

  /** Every filled slot holds an engine over the instance loaded from
      `cache` for that slot's engine type. */
  ghost predicate LoadedFrom(cache: LocalCache, slots: map<EngineType, PolicyEngine?>) {
    forall e :: e in slots && slots[e] != null ==> LoadOpaInstance(cache, e) == Success(slots[e].opaWasmInstance)
  }

  /** `result` is `file` scanned by the policy instance `loaded`: the file
      unchanged, with the first evaluation entry's violations attached. */
  ghost predicate ScannedBy(loaded: Result<OpaWasmInstance, Error>, file: ParsedIacFile, result: IacFileScanResult) {
    && loaded.Success?
    && loaded.value.Evaluate(file.jsonContent).Success?
    && |loaded.value.Evaluate(file.jsonContent).value| > 0
    && result.Parsed() == file
    && result.violatedPolicies == loaded.value.Evaluate(file.jsonContent).value[0].result
  }

  /** A successful scan by an engine is a scan by that engine's instance. */
  lemma ScanFileScannedBy(engine: PolicyEngine, file: ParsedIacFile, result: IacFileScanResult)
    requires engine.ScanFile(file) == Success(result)
    ensures ScannedBy(Success(engine.opaWasmInstance), file, result)
  {
  }

  /** Scanning with engines loaded from the local cache attaches exactly the
      violations the loaded policies report for each file. */
  lemma ScanAllUsesLoadedPolicies(cache: LocalCache, engines: map<EngineType, PolicyEngine?>, files: seq<ParsedIacFile>)
    requires AllBuilt(engines) && LoadedFrom(cache, engines)
    ensures ScanAll(engines, files).Success? ==>
      forall i :: 0 <= i < |files| ==>
        ScannedBy(LoadOpaInstance(cache, files[i].engineType), files[i], ScanAll(engines, files).value[i])
  {
    var r := ScanAll(engines, files);
    if r.Success? {
      forall i | 0 <= i < |files|
        ensures ScannedBy(LoadOpaInstance(cache, files[i].engineType), files[i], r.value[i])
      {
        var engine := EngineFor(engines, files[i].engineType);
        assert LoadOpaInstance(cache, files[i].engineType) == Success(engine.opaWasmInstance);
        ScanFileScannedBy(engine, files[i], r.value[i]);
      }
    }
  }

  /** The per-engine-type cache of policy engines, over the one local cache
      the process reads its policies from. A slot goes from null to an engine
      at most once, and a filled slot holds the engine built from the policy
      loaded for its engine type. */
  class PolicyEngineCache {
    const localCache: LocalCache
    var slots: map<EngineType, PolicyEngine?>

    ghost predicate Valid()
      reads this
    {
      slots.Keys == AllEngineTypes && LoadedFrom(localCache, slots)
    }

    /** Both slots start empty. */
    constructor (localCache: LocalCache)
      ensures Valid() && this.localCache == localCache
      ensures slots == map[Kubernetes := null, Terraform := null]
    {
      this.localCache := localCache;
      slots := map[Kubernetes := null, Terraform := null];
    }

    /** Get-or-build: a filled slot is returned as it is; an empty one is
      built, stored and returned, or stays empty when the build fails. The
      other slot is never touched. */
    method GetPolicyEngine(engineType: EngineType) returns (r: Result<PolicyEngine, Error>)
      requires Valid()
      modifies this
      ensures Valid()
      ensures SlotsOnlyFilled(old(slots), slots)
      ensures old(slots[engineType]) != null ==>
        r == Success(old(slots[engineType])) && slots == old(slots)
      ensures old(slots[engineType]) == null && LoadOpaInstance(localCache, engineType).Failure? ==>
        r == Failure(LoadOpaInstance(localCache, engineType).error) && slots == old(slots)
      ensures old(slots[engineType]) == null && LoadOpaInstance(localCache, engineType).Success? ==>
        r.Success? && fresh(r.value) && r.value.opaWasmInstance == LoadOpaInstance(localCache, engineType).value &&
        slots == old(slots)[engineType := r.value]
    {
      var cached := slots[engineType];
      if cached != null {
        return Success(cached);
      }
      r := BuildPolicyEngine(localCache, engineType);
      if r.Success? {
        slots := slots[engineType := r.value];
      }
    }

    /** Build the Kubernetes engine, then the Terraform engine; the first
      failure stops warming. */
    method WarmPolicyEngineCache() returns (r: Outcome<Error>)
      requires Valid()
      modifies this
      ensures Valid()
      ensures SlotsOnlyFilled(old(slots), slots)
      ensures r == WarmOutcome(old(slots), localCache)
      ensures r.Pass? <==> AllBuilt(slots)
      ensures old(slots[Kubernetes]) == null ==>
        (slots[Kubernetes] != null <==> LoadOpaInstance(localCache, Kubernetes).Success?)
      ensures old(slots[Terraform]) == null ==>
        (slots[Terraform] != null <==> slots[Kubernetes] != null && LoadOpaInstance(localCache, Terraform).Success?)
      ensures forall e :: e in slots && old(slots[e]) == null && slots[e] != null ==> fresh(slots[e])
    {
      var kubernetes := GetPolicyEngine(Kubernetes);
      if kubernetes.Failure? {
        return Fail(kubernetes.error);
      }
      var terraform := GetPolicyEngine(Terraform);
      if terraform.Failure? {
        return Fail(terraform.error);
      }
      return Pass;
    }

    /** `scanFilesForIssues`: warm the cache, then scan every parsed file
      with the engine of its engine type. A build failure or the first scan
      failure fails the whole call; after warming nothing more is built. */
    method ScanFilesForIssues(parsedFiles: seq<ParsedIacFile>) returns (r: Result<seq<IacFileScanResult>, Error>)
      requires Valid()
      modifies this
      ensures Valid()
      ensures SlotsOnlyFilled(old(slots), slots)
      ensures forall e :: e in slots && old(slots[e]) == null && slots[e] != null ==> fresh(slots[e])
      ensures WarmOutcome(old(slots), localCache).Fail? ==> r == Failure(WarmOutcome(old(slots), localCache).error)
      ensures WarmOutcome(old(slots), localCache).Pass? ==> AllBuilt(slots) && r == ScanAll(slots, parsedFiles)
      ensures old(slots[Kubernetes]) == null ==>
        (slots[Kubernetes] != null <==> LoadOpaInstance(localCache, Kubernetes).Success?)
      ensures old(slots[Terraform]) == null ==>
        (slots[Terraform] != null <==> slots[Kubernetes] != null && LoadOpaInstance(localCache, Terraform).Success?)
      ensures r.Success? ==>
        |r.value| == |parsedFiles| &&
        forall i :: 0 <= i < |parsedFiles| ==>
          ScannedBy(LoadOpaInstance(localCache, parsedFiles[i].engineType), parsedFiles[i], r.value[i])
    {
      var warmed := WarmPolicyEngineCache();
      if warmed.Fail? {
        return Failure(warmed.error);
      }
      r := ScanWarmed(parsedFiles);
      ScanAllUsesLoadedPolicies(localCache, slots, parsedFiles);
    }

    /** The fan-out after warming: every file fetches the engine of its engine
      type, which is a cache hit, and is scanned by it, in input order; the
      first scan failure stops the scan. */
    method ScanWarmed(parsedFiles: seq<ParsedIacFile>) returns (r: Result<seq<IacFileScanResult>, Error>)
      requires Valid() && AllBuilt(slots)
      modifies this
      ensures slots == old(slots)
      ensures r == ScanAll(slots, parsedFiles)
    {
      var results: seq<IacFileScanResult> := [];
      for i := 0 to |parsedFiles|
        invariant Valid() && slots == old(slots)
        invariant |results| == i
        invariant forall j :: 0 <= j < i ==>
          EngineFor(slots, parsedFiles[j].engineType).ScanFile(parsedFiles[j]) == Success(results[j])
      {
        var file := parsedFiles[i];
        var engine := GetPolicyEngine(file.engineType);
        assert engine == Success(EngineFor(slots, file.engineType));
        match engine.value.ScanFile(file)
        case Failure(err) =>
          FirstScanFailure(slots, parsedFiles, i);
          return Failure(err);
        case Success(scanResult) =>
          results := results + [scanResult];
      }
      AllScansSucceed(slots, parsedFiles, results);
      r := Success(results);
    }
  }

  /** When every scan before position `i` succeeds and the one at `i` fails,
      `ScanAll` fails with the error of position `i`. */
  lemma FirstScanFailure(engines: map<EngineType, PolicyEngine?>, files: seq<ParsedIacFile>, i: nat)
    requires AllBuilt(engines)
    requires i < |files| && EngineFor(engines, files[i].engineType).ScanFile(files[i]).Failure?
    requires forall j :: 0 <= j < i ==> EngineFor(engines, files[j].engineType).ScanFile(files[j]).Success?
    ensures ScanAll(engines, files) == Failure(EngineFor(engines, files[i].engineType).ScanFile(files[i]).error)
  {
    var r := ScanAll(engines, files);
    assert r.Failure?;
    var k :| 0 <= k < |files| && EngineFor(engines, files[k].engineType).ScanFile(files[k]) == Failure(r.error) &&
      forall j :: 0 <= j < k ==> EngineFor(engines, files[j].engineType).ScanFile(files[j]).Success?;
    assert k == i;
  }

  /** When every scan succeeds, `ScanAll` returns exactly the scan results. */
  lemma AllScansSucceed(engines: map<EngineType, PolicyEngine?>, files: seq<ParsedIacFile>, results: seq<IacFileScanResult>)
    requires AllBuilt(engines) && |results| == |files|
    requires forall j :: 0 <= j < |files| ==>
      EngineFor(engines, files[j].engineType).ScanFile(files[j]) == Success(results[j])
    ensures ScanAll(engines, files) == Success(results)
  {
    var r := ScanAll(engines, files);
    assert r.Success?;
    assert r.value == results;
  }
}
