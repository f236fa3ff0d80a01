/** The parse stage: each input file is decoded according to its declared type
    into zero or more documents, and a batch is split into parsed documents and
    failed inputs. */
module FileParser {
  import opened IacTypes

  /** The two foreign parsers: `safeLoadAll` decodes a YAML stream into its
      documents, `hclToJson` converts Terraform source into one document.
      Either may raise; the raised message is the `Failure` string. */
  datatype Decoders = Decoders(
    safeLoadAll: string -> Result<seq<Json>, string>,
    hclToJson: string -> Result<Json, string>)

  /** Fields every Kubernetes document must own. */
  const RequiredK8sFields: seq<string> := ["apiVersion", "kind", "metadata"]

  /** What a Kubernetes manifest is: an object owning `apiVersion`, `kind`
      and `metadata`. */
  predicate IsK8sManifest(doc: Json) {
    doc.JObject? && "apiVersion" in doc.fields && "kind" in doc.fields && "metadata" in doc.fields
  }

  /** A decoded object whose own `hasOwnProperty` key hides the method of
      that name, so that calling it raises a TypeError. */
  predicate ShadowsHasOwnProperty(doc: Json) {
    doc.JObject? && "hasOwnProperty" in doc.fields
  }

  /** `doc.hasOwnProperty(field)` for a document on which the call succeeds.
      Only objects own named properties among those asked about here. */
  predicate OwnsField(doc: Json, field: string) {
    doc.JObject? && field in doc.fields
  }

  /** The callback of the `map` over a YAML stream: check the required fields
      with `every`, then either build the document or raise. */
  function ParseK8sDocument(file: IacFileData, doc: Json, docId: nat): (r: Result<ParsedIacFile, Error>)
    ensures r.Success? <==> IsK8sManifest(doc) && !ShadowsHasOwnProperty(doc)
    ensures r.Success? ==>
      r.value.Data() == file && r.value.jsonContent == doc &&
      r.value.engineType == Kubernetes && r.value.docId == Some(docId)
    ensures doc.JNull? ==> r == Failure(NullDocument)
    ensures ShadowsHasOwnProperty(doc) ==> r == Failure(HasOwnPropertyShadowed)
    ensures r.Failure? && !doc.JNull? && !ShadowsHasOwnProperty(doc) ==> r.error == InvalidK8sFile
  {
    if doc.JNull? then Failure(NullDocument)
    else if ShadowsHasOwnProperty(doc) then Failure(HasOwnPropertyShadowed)
    else if forall i | 0 <= i < |RequiredK8sFields| :: OwnsField(doc, RequiredK8sFields[i]) then
      assert OwnsField(doc, RequiredK8sFields[0]) && OwnsField(doc, RequiredK8sFields[1]) && OwnsField(doc, RequiredK8sFields[2]);
      Success(ParsedIacFile(file.filePath, file.fileType, file.fileContent, doc, Kubernetes, Some(docId)))
    else
      Failure(InvalidK8sFile)
  }

  /** `docs.map(callback)` from position `from` on: the callback runs in
      order and the first document that raises aborts the whole map. */
  function ParseK8sDocuments(file: IacFileData, docs: seq<Json>, from: nat): (r: Result<seq<ParsedIacFile>, Error>)
    requires from <= |docs|
    decreases |docs| - from
    ensures r.Success? <==> forall i :: from <= i < |docs| ==> ParseK8sDocument(file, docs[i], i).Success?
    ensures r.Success? ==>
      |r.value| == |docs| - from &&
      forall k :: 0 <= k < |r.value| ==> r.value[k] == ParseK8sDocument(file, docs[from + k], from + k).value
    ensures r.Failure? ==>
      exists i :: from <= i < |docs| && ParseK8sDocument(file, docs[i], i) == Failure(r.error) &&
        forall j :: from <= j < i ==> ParseK8sDocument(file, docs[j], j).Success?
  {
    if from == |docs| then Success([])
    else
      match ParseK8sDocument(file, docs[from], from)
      case Failure(e) => Failure(e)
      case Success(d) =>
        match ParseK8sDocuments(file, docs, from + 1)
        case Failure(e) => Failure(e)
        case Success(rest) => Success([d] + rest)
  }

  /** The Kubernetes strategy: one document per YAML document, all or none. */
  function TryParsingKubernetesFile(dec: Decoders, file: IacFileData): (r: Result<seq<ParsedIacFile>, Error>)
    ensures dec.safeLoadAll(file.fileContent).Failure? ==>
      r == Failure(YamlException(dec.safeLoadAll(file.fileContent).error))
    ensures r.Success? <==>
      dec.safeLoadAll(file.fileContent).Success? &&
      forall i :: 0 <= i < |dec.safeLoadAll(file.fileContent).value| ==>
        IsK8sManifest(dec.safeLoadAll(file.fileContent).value[i]) &&
        !ShadowsHasOwnProperty(dec.safeLoadAll(file.fileContent).value[i])
    ensures r.Success? ==>
      var docs := dec.safeLoadAll(file.fileContent).value;
      |r.value| == |docs| &&
      forall i :: 0 <= i < |docs| ==>
        r.value[i].Data() == file && r.value[i].jsonContent == docs[i] &&
        r.value[i].engineType == Kubernetes && r.value[i].docId == Some(i)
    ensures r.Failure? ==> r.error in {InvalidK8sFile, NullDocument, HasOwnPropertyShadowed} || r.error.YamlException?
    ensures r.Failure? && dec.safeLoadAll(file.fileContent).Success? ==>
      var docs := dec.safeLoadAll(file.fileContent).value;
      exists i :: 0 <= i < |docs| && ParseK8sDocument(file, docs[i], i) == Failure(r.error) &&
        forall j :: 0 <= j < i ==> ParseK8sDocument(file, docs[j], j).Success?
  {
    match dec.safeLoadAll(file.fileContent)
    case Failure(reason) => Failure(YamlException(reason))
    case Success(docs) => ParseK8sDocuments(file, docs, 0)
  }

  /** The Terraform strategy: exactly one document without a position; any
      parser error becomes `InvalidTerraformFile`. */
  function TryParsingTerraformFile(dec: Decoders, file: IacFileData): (r: Result<seq<ParsedIacFile>, Error>)
    ensures r.Success? <==> dec.hclToJson(file.fileContent).Success?
    ensures r.Success? ==>
      |r.value| == 1 && r.value[0].Data() == file &&
      r.value[0].jsonContent == dec.hclToJson(file.fileContent).value &&
      r.value[0].engineType == Terraform && r.value[0].docId.None?
    ensures r.Failure? ==> r.error == InvalidTerraformFile
  {
    match dec.hclToJson(file.fileContent)
    case Failure(_) => Failure(InvalidTerraformFile)
    case Success(parsedData) =>
      Success([ParsedIacFile(file.filePath, file.fileType, file.fileContent, parsedData, Terraform, None)])
  }

  /** The engine type a declared file type belongs to, if any. */
  function EngineTypeFor(fileType: string): (r: Option<EngineType>)
    ensures r.Some? <==> fileType in ValidFileTypes
    ensures r == Some(Terraform) <==> fileType == "tf"
    ensures r == Some(Kubernetes) <==> fileType in {"yaml", "yml", "json"}
  {
    if fileType == "tf" then Some(Terraform)
    else if fileType == "yaml" || fileType == "yml" || fileType == "json" then Some(Kubernetes)
    else None
  }

  /** Dispatch on the declared file type. */
  function TryParseIacFile(dec: Decoders, file: IacFileData): (r: Result<seq<ParsedIacFile>, Error>)
    ensures r == Failure(InvalidIacFile) <==> file.fileType !in ValidFileTypes
    ensures EngineTypeFor(file.fileType) == Some(Kubernetes) ==> r == TryParsingKubernetesFile(dec, file)
    ensures EngineTypeFor(file.fileType) == Some(Terraform) ==> r == TryParsingTerraformFile(dec, file)
    ensures r.Success? ==>
      forall p :: p in r.value ==> p.Data() == file && EngineTypeFor(file.fileType) == Some(p.engineType)
  {
    match file.fileType
    case "yaml" => TryParsingKubernetesFile(dec, file)
    case "yml" => TryParsingKubernetesFile(dec, file)
    case "json" => TryParsingKubernetesFile(dec, file)
    case "tf" => TryParsingTerraformFile(dec, file)
    case _ => Failure(InvalidIacFile)
  }

  /** The failed-parse record of an input: its fields, the error and its
      message, with no engine type and no content. */
  function GenerateFailedParsedFile(file: IacFileData, err: Error): (r: FailedIacFileParse)
    ensures r.Data() == file && r.err == err && r.failureReason == Message(err)
    ensures r.engineType.None? && r.jsonContent.None?
  {
    FailedIacFileParse(err, Message(err), file.filePath, file.fileType, file.fileContent, None, None)
  }

  /** What one input adds to `parsedFiles` in a batch of several. */
  function DocumentsOf(dec: Decoders, file: IacFileData): seq<ParsedIacFile> {
    match TryParseIacFile(dec, file)
    case Success(docs) => docs
    case Failure(_) => []
  }

  /** What one input adds to `failedFiles` in a batch of several. */
  function FailuresOf(dec: Decoders, file: IacFileData): seq<FailedIacFileParse> {
    match TryParseIacFile(dec, file)
    case Success(_) => []
    case Failure(err) => [GenerateFailedParsedFile(file, err)]
  }

  /** The parsed documents of a batch, input by input. */
  function ParsedFrom(dec: Decoders, files: seq<IacFileData>): seq<ParsedIacFile> {
    if files == [] then [] else DocumentsOf(dec, files[0]) + ParsedFrom(dec, files[1..])
  }

  /** The failed parses of a batch, input by input. */
  function FailedFrom(dec: Decoders, files: seq<IacFileData>): seq<FailedIacFileParse> {
    if files == [] then [] else FailuresOf(dec, files[0]) + FailedFrom(dec, files[1..])
  }

  /** `parseFilesForScan`: a batch of exactly one input rethrows its error;
      in any other batch every input is parsed and the failures are recorded. */
  method ParseFilesForScan(dec: Decoders, filesData: seq<IacFileData>) returns (r: Result<ParsingResults, Error>)
    ensures |filesData| == 1 && TryParseIacFile(dec, filesData[0]).Failure? ==>
      r == Failure(TryParseIacFile(dec, filesData[0]).error)
    ensures !(|filesData| == 1 && TryParseIacFile(dec, filesData[0]).Failure?) ==>
      r == Success(ParsingResults(ParsedFrom(dec, filesData), FailedFrom(dec, filesData)))
    ensures filesData == [] ==> r == Success(ParsingResults([], []))
  {
    var parsedFiles: seq<ParsedIacFile> := [];
    var failedFiles: seq<FailedIacFileParse> := [];
    for i := 0 to |filesData|
      invariant parsedFiles == ParsedFrom(dec, filesData[..i])
      invariant failedFiles == FailedFrom(dec, filesData[..i])
      invariant |filesData| == 1 && i == 1 ==> TryParseIacFile(dec, filesData[0]).Success?
    {
      var fileData := filesData[i];
      BatchStep(dec, filesData, i);
      match TryParseIacFile(dec, fileData)
      case Success(docs) =>
        assert DocumentsOf(dec, fileData) == docs && FailuresOf(dec, fileData) == [];
        parsedFiles := parsedFiles + docs;
      case Failure(err) =>
        if |filesData| == 1 {
          return Failure(err);
        }
        assert DocumentsOf(dec, fileData) == [] && FailuresOf(dec, fileData) == [GenerateFailedParsedFile(fileData, err)];
        failedFiles := failedFiles + [GenerateFailedParsedFile(fileData, err)];
    }
    assert filesData[..|filesData|] == filesData;
    return Success(ParsingResults(parsedFiles, failedFiles));
  }

  /** A batch of one input contributes exactly that input's share. */
  lemma SingleInput(dec: Decoders, file: IacFileData)
    ensures ParsedFrom(dec, [file]) == DocumentsOf(dec, file)
    ensures FailedFrom(dec, [file]) == FailuresOf(dec, file)
  {
    assert [file][1..] == [];
  }

  /** Splitting a batch splits both lists at the same place, keeping order. */
  lemma BatchAppend(dec: Decoders, a: seq<IacFileData>, b: seq<IacFileData>)
    ensures ParsedFrom(dec, a + b) == ParsedFrom(dec, a) + ParsedFrom(dec, b)
    ensures FailedFrom(dec, a + b) == FailedFrom(dec, a) + FailedFrom(dec, b)
  {
    ParsedAppend(dec, a, b);
    FailedAppend(dec, a, b);
  }

  lemma {:induction false} ParsedAppend(dec: Decoders, a: seq<IacFileData>, b: seq<IacFileData>)
    ensures ParsedFrom(dec, a + b) == ParsedFrom(dec, a) + ParsedFrom(dec, b)
  {
    if a == [] {
      assert a + b == b;
    } else {
      var ab := a + b;
      assert ab != [] && ab[0] == a[0] && ab[1..] == a[1..] + b;
      ParsedAppend(dec, a[1..], b);
      calc {
        ParsedFrom(dec, ab);
        DocumentsOf(dec, a[0]) + ParsedFrom(dec, a[1..] + b);
        DocumentsOf(dec, a[0]) + (ParsedFrom(dec, a[1..]) + ParsedFrom(dec, b));
        (DocumentsOf(dec, a[0]) + ParsedFrom(dec, a[1..])) + ParsedFrom(dec, b);
      }
    }
  }

  lemma {:induction false} FailedAppend(dec: Decoders, a: seq<IacFileData>, b: seq<IacFileData>)
    ensures FailedFrom(dec, a + b) == FailedFrom(dec, a) + FailedFrom(dec, b)
  {
    if a == [] {
      assert a + b == b;
    } else {
      var ab := a + b;
      assert ab != [] && ab[0] == a[0] && ab[1..] == a[1..] + b;
      FailedAppend(dec, a[1..], b);
      calc {
        FailedFrom(dec, ab);
        FailuresOf(dec, a[0]) + FailedFrom(dec, a[1..] + b);
        FailuresOf(dec, a[0]) + (FailedFrom(dec, a[1..]) + FailedFrom(dec, b));
        (FailuresOf(dec, a[0]) + FailedFrom(dec, a[1..])) + FailedFrom(dec, b);
      }
    }
  }

  /** Parsing one more input extends both lists by that input's share. */
  lemma BatchStep(dec: Decoders, files: seq<IacFileData>, i: nat)
    requires i < |files|
    ensures ParsedFrom(dec, files[..i + 1]) == ParsedFrom(dec, files[..i]) + DocumentsOf(dec, files[i])
    ensures FailedFrom(dec, files[..i + 1]) == FailedFrom(dec, files[..i]) + FailuresOf(dec, files[i])
  {
    assert files[..i + 1] == files[..i] + [files[i]];
    SingleInput(dec, files[i]);
    BatchAppend(dec, files[..i], [files[i]]);
  }

  /** Wherever an input stands in a batch of several, it adds either all of
      its documents, in order, to the parsed list and nothing to the failed
      list, or exactly one failed record and no document at all. */
  lemma {:induction false} InputContribution(dec: Decoders, before: seq<IacFileData>, file: IacFileData, after: seq<IacFileData>)
    ensures TryParseIacFile(dec, file).Success? ==>
      ParsedFrom(dec, before + [file] + after) ==
        ParsedFrom(dec, before) + TryParseIacFile(dec, file).value + ParsedFrom(dec, after) &&
      FailedFrom(dec, before + [file] + after) == FailedFrom(dec, before) + FailedFrom(dec, after)
    ensures TryParseIacFile(dec, file).Failure? ==>
      ParsedFrom(dec, before + [file] + after) == ParsedFrom(dec, before) + ParsedFrom(dec, after) &&
      FailedFrom(dec, before + [file] + after) ==
        FailedFrom(dec, before) + [GenerateFailedParsedFile(file, TryParseIacFile(dec, file).error)] + FailedFrom(dec, after)
  {
    var mid := before + [file];
    BatchAppend(dec, mid, after);
    BatchAppend(dec, before, [file]);
    SingleInput(dec, file);
    var parsedMid := ParsedFrom(dec, before) + DocumentsOf(dec, file);
    var failedMid := FailedFrom(dec, before) + FailuresOf(dec, file);
    assert ParsedFrom(dec, mid + after) == parsedMid + ParsedFrom(dec, after);
    assert FailedFrom(dec, mid + after) == failedMid + FailedFrom(dec, after);
    match TryParseIacFile(dec, file)
    case Success(docs) =>
      assert DocumentsOf(dec, file) == docs && FailuresOf(dec, file) == [];
      assert failedMid == FailedFrom(dec, before);
    case Failure(err) =>
      assert DocumentsOf(dec, file) == [] && FailuresOf(dec, file) == [GenerateFailedParsedFile(file, err)];
      assert parsedMid == ParsedFrom(dec, before);
  }

  /** Every parsed document comes from an input of the batch, carries that
      input's fields unchanged and the engine type of its declared type. */
  lemma {:induction false} ParsedProvenance(dec: Decoders, files: seq<IacFileData>)
    ensures forall p :: p in ParsedFrom(dec, files) ==>
      p.Data() in files && EngineTypeFor(p.fileType) == Some(p.engineType)
  {
    if files != [] {
      ParsedProvenance(dec, files[1..]);
      forall p | p in ParsedFrom(dec, files)
        ensures p.Data() in files && EngineTypeFor(p.fileType) == Some(p.engineType)
      {
        if p in DocumentsOf(dec, files[0]) {
          assert p.Data() == files[0];
        } else {
          assert p in ParsedFrom(dec, files[1..]);
        }
      }
    }
  }

  /** Every failed record belongs to an input of the batch whose parse raises
      exactly the recorded error, and has neither engine type nor content. */
  lemma {:induction false} FailedProvenance(dec: Decoders, files: seq<IacFileData>)
    ensures forall q :: q in FailedFrom(dec, files) ==>
      q.Data() in files && TryParseIacFile(dec, q.Data()) == Failure(q.err) &&
      q.failureReason == Message(q.err) && q.engineType.None? && q.jsonContent.None?
  {
    if files != [] {
      FailedProvenance(dec, files[1..]);
      forall q | q in FailedFrom(dec, files)
        ensures q.Data() in files && TryParseIacFile(dec, q.Data()) == Failure(q.err)
      {
        if q in FailuresOf(dec, files[0]) {
          assert q.Data() == files[0];
        } else {
          assert q in FailedFrom(dec, files[1..]);
        }
      }
    }
  }

  /** Conversely, every input that raises has its failed record in the list,
      and every document of an input that parses is in the parsed list. */
  lemma {:induction false} NothingDropped(dec: Decoders, files: seq<IacFileData>)
    ensures forall f :: f in files && TryParseIacFile(dec, f).Failure? ==>
      GenerateFailedParsedFile(f, TryParseIacFile(dec, f).error) in FailedFrom(dec, files)
    ensures forall f, p :: f in files && TryParseIacFile(dec, f).Success? && p in TryParseIacFile(dec, f).value ==>
      p in ParsedFrom(dec, files)
  {
    if files != [] {
      NothingDropped(dec, files[1..]);
    }
  }

  /** Inputs that passed the loader's file-type filter are never rejected as
      unsupported. */
  lemma {:induction false} LoadedInputsNeverUnsupported(dec: Decoders, files: seq<IacFileData>)
    requires forall f :: f in files ==> f.fileType in ValidFileTypes
    ensures forall q :: q in FailedFrom(dec, files) ==> q.err != InvalidIacFile
  {
    FailedProvenance(dec, files);
  }
}
