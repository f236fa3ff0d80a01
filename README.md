# Local IaC scan pipeline: parse stage and policy-engine cache

A Dafny model of the core of the CLI's local Infrastructure-as-Code scan:

- **Parse stage** (`FileParser`, `file_parser.dfy`). A batch of input files
  (path, declared type, content) is parsed file by file. YAML, YML and JSON
  files are Kubernetes manifests: the YAML stream is decoded into documents
  and every document must own `apiVersion`, `kind` and `metadata`, or the
  whole file fails. Terraform (`tf`) files become exactly one document. Any
  other declared type is rejected. A batch of exactly one file rethrows that
  file's error. A larger batch records each failing file as a failed parse and
  goes on.
- **Scan stage** (`FileScanner`, `file_scanner.dfy`). A cache holds one
  policy engine per engine type (Kubernetes, Terraform). Each engine is built
  on first request from the local cache's compiled policy module and metadata,
  then kept. `ScanFilesForIssues` warms both slots, then scans every parsed
  document with the engine of its engine type. The scan attaches the violated
  policies and leaves the document's own fields unchanged.
- **Shared shapes** (`IacTypes`, `iac_types.dfy`). The input file, parsed
  document, failed parse, scan result, engine type, JSON-like document and
  error records.

The foreign parts are passed in as values of function type:

- the YAML and HCL decoders (`FileParser.Decoders`);
- the file reads, JSON parsing and policy loading behind an engine build
  (`FileScanner.LocalCache`);
- the compiled policy's configuration and evaluation
  (`FileScanner.PolicyModule`).

Each of them may fail with a message.

The cache is a class. Its constant `localCache` is the local cache it builds
from, and its map field `slots` is updated slot by slot. The class invariant
says that every filled slot holds an engine over the policy loaded from
`localCache` for that engine type. Every method keeps filled slots as they
are, so a slot is filled at most once. The per-file scan and the parsers are
functions. `ParseFilesForScan` and the fan-out `ScanWarmed` (called by
`ScanFilesForIssues` after warming) are loops. They are proved against the
specification functions `ParsedFrom`/`FailedFrom` and `ScanAll`.

### Behaviour of the code worth stating

- One rejected Kubernetes document fails its whole file. The exception
  escapes the `map` over the file's documents, so no document of that file is
  kept, including valid earlier ones (`FileParser.TryParsingKubernetesFile`,
  `FileParser.InputContribution`).
- Scan results keep their input positions. `Promise.all` over `map` puts each
  result at its input's position (`FileScanner.ScanAll`).
- The cache has no guard against two concurrent first builds of the same
  engine type. It warms both slots before the fan-out, so in the sequential
  model a slot is filled at most once.
- A YAML document that decodes to `null` makes `hasOwnProperty` raise a
  TypeError. So does an object whose own key `hasOwnProperty` hides the
  method. Both fail the file with that TypeError rather than
  `'Invalid K8s File!'`.
- An `evaluate` call that returns no entry fails the scan when `[0].result`
  is read.

## Model

| member | source | states |
|---|---|---|
| `IacTypes.Message` | src/cli/commands/test/iac-local-execution/file-parser.ts:39 | the failure reason is the raised error's message; only a message taken from the YAML parser can be empty, all others are the source's fixed texts or wrap them |
| `FileParser.ParseK8sDocument` | src/cli/commands/test/iac-local-execution/file-parser.ts:64-78 | a document is accepted iff it is an object owning apiVersion, kind and metadata (and its own keys do not hide `hasOwnProperty`); an accepted document copies the input's fields and carries the decoded content, engine type Kubernetes and its position; a null document raises a TypeError, a non-manifest `'Invalid K8s File!'` |
| `FileParser.ParseK8sDocuments` | src/cli/commands/test/iac-local-execution/file-parser.ts:64-79 | the map succeeds iff every document is accepted, yielding one document per position in order; otherwise it fails with the error of the first rejected document |
| `FileParser.TryParsingKubernetesFile` | src/cli/commands/test/iac-local-execution/file-parser.ts:61-80 | a YAML parser error propagates unwrapped; the file succeeds iff every decoded document is a manifest, and then yields exactly one document per YAML document, document i having docId i, jsonContent document i, engine type Kubernetes and the input's fields; otherwise no document is returned and the error is that of the first rejected document |
| `FileParser.TryParsingTerraformFile` | src/cli/commands/test/iac-local-execution/file-parser.ts:82-97 | succeeds iff the HCL parser does, yielding exactly one document with the parser's output, engine type Terraform and no docId; any parser error becomes `'Invalid Terraform File!'` |
| `FileParser.EngineTypeFor` | src/cli/commands/test/iac-local-execution/types.ts:7 | a declared type has an engine type iff it is one of tf, json, yaml, yml; tf and only tf gets Terraform, and yaml, yml and json get Kubernetes |
| `FileParser.TryParseIacFile` | src/cli/commands/test/iac-local-execution/file-parser.ts:48-59 | yaml/yml/json dispatch to the Kubernetes strategy and tf to the Terraform strategy; `'Invalid IaC file'` is raised iff the declared type is not a valid one; every document returned copies the input and has the engine type of its declared type |
| `FileParser.GenerateFailedParsedFile` | src/cli/commands/test/iac-local-execution/file-parser.ts:33-46 | the failed record keeps the input's path, type and content, carries the error and its message as failure reason, and has null engine type and content |
| `FileParser.ParseFilesForScan` | src/cli/commands/test/iac-local-execution/file-parser.ts:13-31 | a batch of exactly one failing input raises that input's error and returns no results; every other batch (including the empty one, which gives two empty lists) completes with the parsed documents and failed records of all inputs, in input order |
| `FileParser.BatchAppend` | src/cli/commands/test/iac-local-execution/file-parser.ts:16-30 | the parsed and failed lists of a concatenated batch are the concatenations of the parts' lists: input order is kept across files |
| `FileParser.InputContribution` | src/cli/commands/test/iac-local-execution/file-parser.ts:18-24 | at any position of a batch, an input contributes either all of its documents, in order, to the parsed list and nothing to the failed list, or exactly one failed record and no document at all |
| `FileParser.ParsedProvenance` | src/cli/commands/test/iac-local-execution/file-parser.ts:18-20 | every parsed document carries the fields of some input of the batch and the engine type matching its declared type |
| `FileParser.FailedProvenance` | src/cli/commands/test/iac-local-execution/file-parser.ts:21-23 | every failed record belongs to an input whose parse raises exactly the recorded error, with the error's message as reason and null engine type and content |
| `FileParser.NothingDropped` | src/cli/commands/test/iac-local-execution/file-parser.ts:18-24 | every failing input has its failed record in the list, and every document of every succeeding input is in the parsed list |
| `FileParser.LoadedInputsNeverUnsupported` | src/cli/commands/test/iac-local-execution/file-loader.ts:47 | when the loader's file-type filter has admitted every input, no failure is `'Invalid IaC file'` |
| `FileScanner.LoadOpaInstance` | src/cli/commands/test/iac-local-execution/file-scanner.ts:55-72 | a build succeeds iff both artifacts are read, the metadata parses, the module loads and accepts the metadata through `setData`; the engine's instance is that module configured with that metadata; any failure is a build failure naming the engine directory |
| `FileScanner.BuildPolicyEngine` | src/cli/commands/test/iac-local-execution/file-scanner.ts:47-73 | a successful build returns a new engine over the loaded instance; a failed one returns the build error |
| `FileScanner.PolicyEngine.constructor` | src/cli/commands/test/iac-local-execution/file-scanner.ts:76-78 | the engine keeps the instance it is given |
| `FileScanner.PolicyEngine.Evaluate` | src/cli/commands/test/iac-local-execution/file-scanner.ts:80-82 | the violations are the first evaluation entry's result; evaluation fails when the instance raises or returns no entry |
| `FileScanner.PolicyEngine.ScanFile` | src/cli/commands/test/iac-local-execution/file-scanner.ts:84-95 | on success the result is the input document unchanged (path, type, content, jsonContent, engine type, docId) with the evaluated violations attached; an evaluator failure becomes `'Failed to run policy engine: …'` |
| `FileScanner.ScanAll` | src/cli/commands/test/iac-local-execution/file-scanner.ts:18-24 | succeeds iff every file's scan by the engine of its engine type succeeds, and then gives one result per file at the file's position, each preserving the file; otherwise fails with the error of the first failing file |
| `FileScanner.WarmOutcome` | src/cli/commands/test/iac-local-execution/file-scanner.ts:36-40 | warming a cache whose slots are both filled passes without building; a warming failure is a build failure naming the engine directory |
| `FileScanner.ScanAllUsesLoadedPolicies` | src/cli/commands/test/iac-local-execution/file-scanner.ts:18-24 | when both engines were built from the local cache, a successful scan gives each file the first evaluation entry's violations from the policy loaded for the file's engine type |
| `FileScanner.PolicyEngineCache.constructor` | src/cli/commands/test/iac-local-execution/file-scanner.ts:42-45 | both slots start null, over the given local cache |
| `FileScanner.PolicyEngineCache.GetPolicyEngine` | src/cli/commands/test/iac-local-execution/file-scanner.ts:27-34 | a filled slot is returned without building and nothing changes; an empty slot gets a new engine over the instance loaded for its engine type, which is stored and returned, or stays null and the build error is returned; the other slot is untouched and no filled slot is replaced |
| `FileScanner.PolicyEngineCache.WarmPolicyEngineCache` | src/cli/commands/test/iac-local-execution/file-scanner.ts:36-40 | builds Kubernetes first, then Terraform, stopping at the first failure; an empty Kubernetes slot ends filled iff its policy loads, an empty Terraform slot iff the Kubernetes slot is filled and its own policy loads; newly filled slots hold new engines over the loaded instances; succeeds iff both slots end filled |
| `FileScanner.PolicyEngineCache.ScanWarmed` | src/cli/commands/test/iac-local-execution/file-scanner.ts:18-24 | with both slots filled, fetching each file's engine builds nothing and changes no slot, and the results are exactly `ScanAll` over the slots |
| `FileScanner.PolicyEngineCache.ScanFilesForIssues` | src/cli/commands/test/iac-local-execution/file-scanner.ts:12-25 | a warming failure is raised; an empty Kubernetes slot ends filled iff its policy loads, an empty Terraform slot iff the Kubernetes slot is filled and its own policy loads, whether or not the call fails; otherwise the result is `ScanAll` over the warmed slots; on success result i is parsed file i unchanged with the violations that the policy loaded for its engine type reports for its content; filled slots are never replaced |

## Left out

- File loading (`file-loader.ts`) and the entry point (`index.ts`) are not part of this model: directory walking, file reads, the local-cache presence check and result formatting are I/O or modules outside this core. The loader's file-type filter appears only as the precondition of `FileParser.LoadedInputsNeverUnsupported`.
- YAML and HCL grammar: `js-yaml`'s `safeLoadAll` and `hcl-to-json` are opaque decoders that return documents or an error message.
- The OPA WebAssembly runtime, `fs.readFileSync`, `JSON.parse`, `loadPolicy` and the loaded module's `setData` are opaque functions that may fail. The local cache's path resolver is a total function, because its module is not part of this model.
- The local cache's files are treated as unchanging during a run: its reads are functions of the path. A build retried after a failure therefore fails again, although the program re-reads the files on every request while a slot is empty, and an engine is identified with what the files hold at any later time.
- Concurrency: `async`/`await` and `Promise.all` are modelled sequentially. When several scans fail, the model reports the first failure in input order.
- JSON numbers are integers; floating point is not modelled.
- `PolicyMetadata` is passed through uninterpreted. Its `severity` is kept as text because the `SEVERITY` enumeration is not part of this model.
- The `err` object kept on a failed parse is the model's `Error` value, not a JavaScript exception object with a stack.
- Message: the TypeError texts for a null document, a shadowed `hasOwnProperty` and a missing evaluation entry are representative; the exact wording depends on the JavaScript runtime. The text of a wrapped scan failure uses the cause string as given, without modelling how JavaScript stringifies the caught value.
