/** Shapes shared by the parse stage and the scan stage of the local IaC
    pipeline: input files, parsed documents, failed parses, scan results,
    the two engine types and the errors each stage can raise. */
module IacTypes {

  datatype Option<+T> = None | Some(value: T)

  /** A computation that may raise: the source's exceptions become `Failure`. */
  datatype Result<+T, +E> = Success(value: T) | Failure(error: E)

  /** A computation with no value that may raise. */
  datatype Outcome<+E> = Pass | Fail(error: E)

  /** A JSON-like value as produced by the YAML and HCL decoders. Numbers are
      kept integral; objects are maps from property name to value. */
  datatype Json =
    | JNull
    | JBool(b: bool)
    | JNumber(n: int)
    | JString(s: string)
    | JArray(items: seq<Json>)
    | JObject(fields: map<string, Json>)

  /** The policy domain of a document; it selects both the parsing strategy
      and the cached policy engine. */
  datatype EngineType = Kubernetes | Terraform

  const AllEngineTypes: set<EngineType> := {Kubernetes, Terraform}

  /** Declared file types the loader lets through to the parser. */
  const ValidFileTypes: seq<string> := ["tf", "json", "yaml", "yml"]

  /** A file as handed over by the loader. */
  datatype IacFileData = IacFileData(filePath: string, fileType: string, fileContent: string)

  /** One normalised document of an input file: the input's fields plus the
      decoded content, its engine type and, for multi-document streams, the
      document's position. */
  datatype ParsedIacFile = ParsedIacFile(
    filePath: string,
    fileType: string,
    fileContent: string,
    jsonContent: Json,
    engineType: EngineType,
    docId: Option<nat>)
  {
    /** The input fields the document was copied from. */
    function Data(): IacFileData {
      IacFileData(filePath, fileType, fileContent)
    }
  }

  /** An input that could not be parsed. `engineType` and `jsonContent` are
      null in the source and always `None` here. */
  datatype FailedIacFileParse = FailedIacFileParse(
    err: Error,
    failureReason: string,
    filePath: string,
    fileType: string,
    fileContent: string,
    engineType: Option<EngineType>,
    jsonContent: Option<Json>)
  {
    function Data(): IacFileData {
      IacFileData(filePath, fileType, fileContent)
    }
  }

  datatype ParsingResults = ParsingResults(
    parsedFiles: seq<ParsedIacFile>,
    failedFiles: seq<FailedIacFileParse>)

  /** One violated policy, passed through from the policy engine uninterpreted. */
  datatype PolicyMetadata = PolicyMetadata(
    id: string,
    publicId: string,
    policyType: string,
    subType: string,
    title: string,
    description: string,
    severity: string,
    msg: string,
    policyEngineType: string,
    issue: string,
    impact: string,
    resolve: string,
    references: seq<string>)

  /** A parsed document with the policies it violates attached. */
  datatype IacFileScanResult = IacFileScanResult(
    filePath: string,
    fileType: string,
    fileContent: string,
    jsonContent: Json,
    engineType: EngineType,
    docId: Option<nat>,
    violatedPolicies: seq<PolicyMetadata>)
  {
    /** The parsed document this result was made from. */
    function Parsed(): ParsedIacFile {
      ParsedIacFile(filePath, fileType, fileContent, jsonContent, engineType, docId)
    }
  }

  /** The errors raised in the two stages, one constructor per distinct throw
      site. Texts from foreign code (the YAML parser, the file system, the
      policy engine) are carried as strings. */
  datatype Error =
    | InvalidIacFile                       // unsupported declared file type
    | InvalidK8sFile                       // a YAML document lacks a required field
    | InvalidTerraformFile                 // the HCL parser raised
    | YamlException(reason: string)        // the YAML parser raised; not wrapped
    | NullDocument                         // hasOwnProperty called on a null document
    | HasOwnPropertyShadowed               // the document's own "hasOwnProperty" key hides the method
    | PolicyEngineBuildFailed(dir: string, cause: string)
    | PolicyEngineRunFailed(cause: string)

  /** The `message` of the raised error, which becomes a failed parse's
      `failureReason`. Only a message taken verbatim from the YAML parser can
      be empty. */
  function Message(e: Error): (m: string)
    ensures m == "" ==> e.YamlException?
  {
    match e
    case InvalidIacFile => "Invalid IaC file"
    case InvalidK8sFile => "Invalid K8s File!"
    case InvalidTerraformFile => "Invalid Terraform File!"
    case YamlException(reason) => reason
    case NullDocument => "Cannot read property 'hasOwnProperty' of null"
    case HasOwnPropertyShadowed => "parsedYamlDocument.hasOwnProperty is not a function"
    case PolicyEngineBuildFailed(dir, cause) =>
      "Failed to build policy engine from path: " + dir + ": \n err: " + cause
    case PolicyEngineRunFailed(cause) => "Failed to run policy engine: " + cause
  }
}
