/** The orchestration API (docker/app.py): request validation with its
    defaults, the prompt built from retrieved chunks, the shaping of the
    `/generate/` response, and the bodies returned by `/upload-dataset/` and
    `/parse-documents/`. The document service (retrieval, dataset and document
    lookup, parsing) and the completion service are function parameters. */
module RagApi {
  import opened Base

  /** A chunk as returned by retrieval: its source document and its text. */
  datatype Chunk = Chunk(documentId: string, content: string)

  /** The body of `/retrieve/`. The similarity threshold is a float in the
      source; it is carried along and never computed with. */
  datatype RetrieveRequest = RetrieveRequest(
    query: string,
    datasetIds: seq<string>,
    limit: int,
    similarityThreshold: real)

  /** The body of `/generate/`: a retrieve request plus the completion model. */
  datatype GenerateRequest = GenerateRequest(retrieve: RetrieveRequest, model: string)

  /** A field of a JSON request body: left out, an explicit `null`, or a
      value of the field's declared type. */
  datatype Field<T> = Absent | Null | Given(value: T)

  /** A JSON request body before validation. */
  datatype RequestJson = RequestJson(
    query: Field<string>,
    datasetIds: Field<seq<string>>,
    limit: Field<int>,
    similarityThreshold: Field<real>,
    model: Field<string>)

  const DefaultLimit: int := 10
  const DefaultSimilarityThreshold: real := 0.2

  /** Validation of a `/retrieve/` body: `query` and `dataset_ids` are
      required, `limit` and `similarity_threshold` fall back to their
      defaults when left out; no field may be `null`, since none is declared
      optional. Other fields, `model` among them, are ignored. None stands
      for the validation error. */
  function ParseRetrieveRequest(b: RequestJson): (r: Option<RetrieveRequest>)
    ensures r.Some? <==>
      b.query.Given? && b.datasetIds.Given? && !b.limit.Null? && !b.similarityThreshold.Null?
    ensures r.Some? ==> r.value.query == b.query.value && r.value.datasetIds == b.datasetIds.value
    ensures r.Some? ==> r.value.limit == (if b.limit.Given? then b.limit.value else 10)
    ensures r.Some? ==>
      r.value.similarityThreshold == (if b.similarityThreshold.Given? then b.similarityThreshold.value else 0.2)
  {
    if !b.query.Given? || !b.datasetIds.Given? || b.limit.Null? || b.similarityThreshold.Null? then None
    else
      var limit := if b.limit.Given? then b.limit.value else DefaultLimit;
      var threshold := if b.similarityThreshold.Given? then b.similarityThreshold.value
                       else DefaultSimilarityThreshold;
      Some(RetrieveRequest(b.query.value, b.datasetIds.value, limit, threshold))
  }

  /** Validation of a `/generate/` body: everything a retrieve request takes,
      with the same defaults, and a required, non-null `model`. */
  function ParseGenerateRequest(b: RequestJson): (r: Option<GenerateRequest>)
    ensures r.Some? <==>
      b.query.Given? && b.datasetIds.Given? && !b.limit.Null? && !b.similarityThreshold.Null? && b.model.Given?
    ensures r.Some? ==> Some(r.value.retrieve) == ParseRetrieveRequest(b) && r.value.model == b.model.value
  {
    match ParseRetrieveRequest(b)
    case None => None
    case Some(base) =>
      if !b.model.Given? then None else Some(GenerateRequest(base, b.model.value))
  }

  /** The heading of the `i`-th chunk (counting from 0) in the prompt. */
  function EntryHeading(i: nat): string
  {
    "Document " + NatToString(i + 1) + ":\n"
  }

  /** One chunk's entry in the prompt context: its 1-based number and its
      content cut to 500 characters, always followed by an ellipsis. */
  function ChunkEntry(i: nat, c: Chunk): (r: string)
    ensures |r| == |EntryHeading(i)| + Min(500, |c.content|) + 3
    ensures r[..|EntryHeading(i)|] == EntryHeading(i)
    ensures r[|EntryHeading(i)|..|r| - 3] <= c.content && r[|r| - 3..] == "..."
    ensures |c.content| <= 500 ==> r == EntryHeading(i) + c.content + "..."
  {
    var h := EntryHeading(i);
    var e := Ellipsized(c.content, 500);
    assert (h + e)[|h|..|h + e| - 3] == e[..|e| - 3];
    h + e
  }

  /** The entries of all chunks, numbered in retrieval order. */
  function Entries(chunks: seq<Chunk>): (r: seq<string>)
    ensures |r| == |chunks|
    ensures forall i :: 0 <= i < |chunks| ==> r[i] == ChunkEntry(i, chunks[i])
    decreases |chunks|
  {
    if chunks == [] then []
    else Entries(chunks[..|chunks| - 1]) + [ChunkEntry(|chunks| - 1, chunks[|chunks| - 1])]
  }

  /** The context block: the entries joined by blank lines. */
  function Context(chunks: seq<Chunk>): string
  {
    Join("\n\n", Entries(chunks))
  }

  /** No chunks give an empty context; one chunk gives just its entry. */
  lemma ContextOfFewChunks(chunks: seq<Chunk>)
    requires |chunks| <= 1
    ensures chunks == [] ==> Context(chunks) == ""
    ensures |chunks| == 1 ==> Context(chunks) == ChunkEntry(0, chunks[0])
  {
  }

  /** A further chunk adds a blank line and its entry, numbered after the
      others, and leaves the context of the earlier chunks as it was. */
  lemma {:induction false} ContextSnoc(chunks: seq<Chunk>, c: Chunk)
    requires chunks != []
    ensures Context(chunks + [c]) == Context(chunks) + "\n\n" + ChunkEntry(|chunks|, c)
  {
    var all := chunks + [c];
    assert all[..|all| - 1] == chunks;
    var es := Entries(all);
    assert es[..|es| - 1] == Entries(chunks);
  }

  lemma PrefixOfAppend(a: string, b: string)
    ensures a <= a + b
  {
    assert (a + b)[..|a|] == a;
  }

  lemma PrefixTransitive(a: string, b: string, c: string)
    requires a <= b && b <= c
    ensures a <= c
  {
    assert c[..|b|][..|a|] == c[..|a|];
  }

  /** The context of the first `k` chunks is a prefix of the whole context:
      entries appear in retrieval order and are never rewritten. */
  lemma {:induction false} ContextPrefix(chunks: seq<Chunk>, k: nat)
    requires k <= |chunks|
    ensures Context(chunks[..k]) <= Context(chunks)
    decreases |chunks| - k
  {
    if k == |chunks| {
      assert chunks[..k] == chunks;
    } else if k == 0 {
      assert Entries(chunks[..0]) == [];
    } else {
      var front := chunks[..k];
      assert chunks[..k + 1] == front + [chunks[k]];
      ContextPrefix(chunks, k + 1);
      ContextSnoc(front, chunks[k]);
      var a, b := Context(front), Context(chunks[..k + 1]);
      PrefixOfAppend(a, "\n\n" + ChunkEntry(k, chunks[k]));
      PrefixTransitive(a, b, Context(chunks));
    }
  }

  /** The fixed text before the context, after it, and after the query. The
      indentation of the source's triple-quoted template is part of the text. */
  const PromptHead: string :=
    "You are an assistant that have access to multiple documents.\n\n"
    + "            Context retrieved from the documents:\n"
    + "            "
  const PromptMiddle: string := "\n\n            User's query: "
  const PromptTail: string :=
    "\n\n            Give an answer based on retrieved context. If context does not contain the answer say so"

  /** The prompt sent to the completion service. */
  function BuildRagPrompt(query: string, chunks: seq<Chunk>): (r: string)
    ensures |r| == |PromptHead| + |Context(chunks)| + |PromptMiddle| + |query| + |PromptTail|
    ensures r[..|PromptHead|] == PromptHead
    ensures r[|r| - |PromptTail|..] == PromptTail
  {
    var r := PromptHead + Context(chunks) + PromptMiddle + query + PromptTail;
    assert r[..|PromptHead|] == PromptHead;
    r
  }

  /** Reads the query back out of a prompt built over `chunks`; None when the
      text does not have the prompt's shape. */
  function ExtractQuery(prompt: string, chunks: seq<Chunk>): Option<string>
  {
    var before := PromptHead + Context(chunks) + PromptMiddle;
    if |prompt| >= |before| + |PromptTail|
       && prompt[..|before|] == before
       && prompt[|prompt| - |PromptTail|..] == PromptTail
    then Some(prompt[|before|..|prompt| - |PromptTail|])
    else None
  }

  lemma CutMiddle(before: string, middle: string, after: string)
    ensures var t := before + middle + after;
      && t[..|before|] == before
      && t[|t| - |after|..] == after
      && t[|before|..|t| - |after|] == middle
  {
  }

  /** The query is embedded verbatim and whole: it can be read back out of
      the prompt, and only chunk contents are ever cut. */
  lemma QueryRoundTrip(query: string, chunks: seq<Chunk>)
    ensures ExtractQuery(BuildRagPrompt(query, chunks), chunks) == Some(query)
  {
    var before := PromptHead + Context(chunks) + PromptMiddle;
    assert BuildRagPrompt(query, chunks) == before + query + PromptTail;
    CutMiddle(before, query, PromptTail);
  }

  /** Different queries over the same chunks give different prompts. */
  lemma PromptDeterminesQuery(q1: string, q2: string, chunks: seq<Chunk>)
    requires BuildRagPrompt(q1, chunks) == BuildRagPrompt(q2, chunks)
    ensures q1 == q2
  {
    QueryRoundTrip(q1, chunks);
    QueryRoundTrip(q2, chunks);
  }

  /** The `prompt_used` field: the first 500 characters of the prompt and an
      ellipsis. */
  function PromptUsed(prompt: string): (r: string)
    ensures |r| <= 503
    ensures r == Take(prompt, 500) + "..."
  {
    Ellipsized(prompt, 500)
  }

  /** The source names of the chunks, in chunk order, each looked up in the
      FIRST requested dataset. The dataset list is indexed only when there is
      a chunk to name, and a failed lookup (or no dataset id) fails the whole
      request, as the exception it raises does. */
  function Sources(datasetIds: seq<string>, chunks: seq<Chunk>,
                   documentName: (string, string) -> Option<string>): (r: Option<seq<string>>)
    ensures r.Some? <==>
      chunks == [] ||
      (|datasetIds| > 0 &&
       forall i :: 0 <= i < |chunks| ==> documentName(datasetIds[0], chunks[i].documentId).Some?)
    ensures r.Some? ==>
      |r.value| == |chunks| &&
      forall i :: 0 <= i < |chunks| ==>
        r.value[i] == documentName(datasetIds[0], chunks[i].documentId).value
    decreases |chunks|
  {
    if chunks == [] then Some([])
    else if datasetIds == [] then None
    else
      match Sources(datasetIds, chunks[..|chunks| - 1], documentName)
      case None => None
      case Some(front) =>
        match documentName(datasetIds[0], chunks[|chunks| - 1].documentId)
        case None => None
        case Some(name) => Some(front + [name])
  }

  /** The body of a successful `/generate/`. */
  datatype GenerateResponse = GenerateResponse(answer: string, sources: seq<string>, promptUsed: string)

  /** `/generate/`: retrieve with the request's parameters, name the sources,
      build the prompt, ask the completion service with the request's model.
      None stands for a request that fails with an exception, whether it is
      raised by retrieval, by a source lookup or by the completion service. */
  function GenerateAnswer(
    req: GenerateRequest,
    retrieve: RetrieveRequest -> Option<seq<Chunk>>,
    documentName: (string, string) -> Option<string>,
    complete: (string, string) -> Option<string>): (r: Option<GenerateResponse>)
    ensures r.Some? ==> retrieve(req.retrieve).Some?
    ensures retrieve(req.retrieve).Some? ==>
      var chunks := retrieve(req.retrieve).value;
      var prompt := BuildRagPrompt(req.retrieve.query, chunks);
      && (r.Some? <==>
            Sources(req.retrieve.datasetIds, chunks, documentName).Some?
            && complete(req.model, prompt).Some?)
      && (r.Some? ==>
            && r.value.answer == complete(req.model, prompt).value
            && |r.value.sources| == |chunks|
            && (forall i :: 0 <= i < |chunks| ==>
                  r.value.sources[i] == documentName(req.retrieve.datasetIds[0], chunks[i].documentId).value)
            && r.value.promptUsed == Take(prompt, 500) + "..."
            && |r.value.promptUsed| <= 503)
  {
    match retrieve(req.retrieve)
    case None => None
    case Some(chunks) =>
      match Sources(req.retrieve.datasetIds, chunks, documentName)
      case None => None
      case Some(sources) =>
        var prompt := BuildRagPrompt(req.retrieve.query, chunks);
        match complete(req.model, prompt)
        case None => None
        case Some(answer) => Some(GenerateResponse(answer, sources, PromptUsed(prompt)))
  }

  /** The `{status, dataset_id}` body of the upload and parse endpoints. */
  datatype StatusResponse = StatusResponse(status: string, datasetId: string)

  const UploadSucceeded: string := "success"
  const ParsingSucceeded: string := "parsing_success"

  /** Defaults of `/upload-dataset/` for the dataset it creates. */
  const DefaultDatasetName: string := "test_dataset"
  const DefaultChunkMethod: string := "naive"
  const DefaultEmbeddingModel: string := "mistral-embed@Mistral"

  /** The scalar parameters of `/upload-dataset/`. Being plain parameters
      with defaults next to the uploaded files, they are bound from the query
      string; a parameter the query does not carry is None. */
  datatype UploadQuery = UploadQuery(name: Option<string>, chunkMethod: Option<string>, embeddingModel: Option<string>)

  /** The settings of the dataset the endpoint creates. */
  datatype DatasetSettings = DatasetSettings(name: string, chunkMethod: string, embeddingModel: string)

  /** Each setting comes from the query, or is its default when the query
      does not carry it. */
  function SettingsOf(q: UploadQuery): (r: DatasetSettings)
    ensures r.name == if q.name.Some? then q.name.value else "test_dataset"
    ensures r.chunkMethod == if q.chunkMethod.Some? then q.chunkMethod.value else "naive"
    ensures r.embeddingModel == if q.embeddingModel.Some? then q.embeddingModel.value else "mistral-embed@Mistral"
  {
    DatasetSettings(
      if q.name.Some? then q.name.value else DefaultDatasetName,
      if q.chunkMethod.Some? then q.chunkMethod.value else DefaultChunkMethod,
      if q.embeddingModel.Some? then q.embeddingModel.value else DefaultEmbeddingModel)
  }

  /** `/upload-dataset/` creates a dataset with the settings of the query and
      uploads the files to it (`createDataset` gives the new dataset's id, or
      None when creating or uploading raises), then answers with that id. */
  function UploadDatasetEndpoint(q: UploadQuery, createDataset: DatasetSettings -> Option<string>): (r: Option<StatusResponse>)
    ensures r.Some? <==> createDataset(SettingsOf(q)).Some?
    ensures r.Some? ==> r.value.status == "success" && r.value.datasetId == createDataset(SettingsOf(q)).value
  {
    match createDataset(SettingsOf(q))
    case None => None
    case Some(id) => Some(StatusResponse(UploadSucceeded, id))
  }

  /** How the document service's parse call ended. The backend logs the
      outcome of the parse call itself and swallows its failures. */
  datatype ParseOutcome = Finished | Interrupted | Failed(message: string)

  /** `/parse-documents/`: fails when the dataset cannot be looked up or when
      listing its documents raises (that call comes before the backend's
      `try`); otherwise it reports `parsing_success` with the id it was
      given, whatever the parse outcome. */
  function ParseDocumentsEndpoint(datasetId: string, datasetFound: bool, documentsListed: bool,
                                  outcome: ParseOutcome): (r: Option<StatusResponse>)
    ensures r.Some? <==> datasetFound && documentsListed
    ensures r.Some? ==> r.value.status == "parsing_success" && r.value.datasetId == datasetId
  {
    if !datasetFound || !documentsListed then None else Some(StatusResponse(ParsingSucceeded, datasetId))
  }
}
