/** The interactive client (gui.py): the per-session state that drives the
    upload, parse and question-answering workflow, the three API wrappers,
    and the labels of the chat-history expanders.

    The session state is a dictionary; `keys` says which of its five entries
    exist. The transitions are stated once, on the value `SessionView`, and
    the `Session` class updates its fields in place to follow them. The HTTP
    transport is a function parameter; rendering is not modelled. */
module Gui {
  import opened Base
  import RagApi

  /** The session-state entries the client reads and writes. */
  datatype Key = DatasetIdKey | UploadedKey | ParsedKey | UploadedFilesKey | ChatHistoryKey

  const AllKeys: set<Key> := {DatasetIdKey, UploadedKey, ParsedKey, UploadedFilesKey, ChatHistoryKey}

  newtype Byte = x: int | 0 <= x < 256

  /** A file picked in the uploader: its name, bytes and MIME type. */
  datatype UploadedFile = UploadedFile(name: string, content: seq<Byte>, mimeType: string)

  /** One answered question. The timestamp comes from the clock and is
      passed in. */
  datatype ChatTurn = ChatTurn(query: string, answer: string, sources: seq<string>, timestamp: real)

  /** The session state; the value of an entry whose key is absent is
      meaningless. */
  datatype SessionView = SessionView(
    keys: set<Key>,
    datasetId: Option<string>,
    uploaded: bool,
    parsed: bool,
    uploadedFiles: seq<UploadedFile>,
    chatHistory: seq<ChatTurn>)

  /** The state right after initialisation of an empty session. */
  const InitialView: SessionView := SessionView(AllKeys, None, false, false, [], [])

  /** The workflow invariant, for a partially filled state: whatever is
      present says that parsing follows upload and that questions follow
      parsing. */
  predicate Consistent(v: SessionView)
  {
    && (ParsedKey in v.keys && v.parsed ==> UploadedKey in v.keys && v.uploaded)
    && (ChatHistoryKey in v.keys && v.chatHistory != [] ==> ParsedKey in v.keys && v.parsed)
  }

  /** A state between user actions: every entry present and the workflow
      invariant kept. */
  predicate ValidState(v: SessionView)
  {
    v.keys == AllKeys && Consistent(v)
  }

  /** `init_session_state`: fills in the missing entries with their defaults
      and leaves the present ones untouched. */
  function Init(v: SessionView): (r: SessionView)
    ensures r.keys == AllKeys
    ensures r.datasetId == if DatasetIdKey in v.keys then v.datasetId else None
    ensures r.uploaded == (UploadedKey in v.keys && v.uploaded)
    ensures r.parsed == (ParsedKey in v.keys && v.parsed)
    ensures r.uploadedFiles == if UploadedFilesKey in v.keys then v.uploadedFiles else []
    ensures r.chatHistory == if ChatHistoryKey in v.keys then v.chatHistory else []
  {
    SessionView(
      AllKeys,
      if DatasetIdKey in v.keys then v.datasetId else None,
      if UploadedKey in v.keys then v.uploaded else false,
      if ParsedKey in v.keys then v.parsed else false,
      if UploadedFilesKey in v.keys then v.uploadedFiles else [],
      if ChatHistoryKey in v.keys then v.chatHistory else [])
  }

  /** On a session where every entry is present, initialisation changes
      nothing. */
  lemma InitKeepsPresentEntries(v: SessionView)
    requires v.keys == AllKeys
    ensures Init(v) == v
  {
  }

  /** Initialising a consistent, partially filled session gives a valid one. */
  lemma InitEstablishesValid(v: SessionView)
    requires Consistent(v)
    ensures ValidState(Init(v))
  {
  }

  /** Calling `init_session_state` twice is calling it once. */
  lemma InitIdempotent(v: SessionView)
    ensures Init(Init(v)) == Init(v)
  {
    InitKeepsPresentEntries(Init(v));
  }

  /** A set of keys that holds each of the five entries is the full set. */
  lemma AllKeysPresent(keys: set<Key>)
    requires DatasetIdKey in keys && UploadedKey in keys && ParsedKey in keys
    requires UploadedFilesKey in keys && ChatHistoryKey in keys
    ensures keys == AllKeys
  {
    forall k: Key ensures k in keys && k in AllKeys {
      match k
      case DatasetIdKey =>
      case UploadedKey =>
      case ParsedKey =>
      case UploadedFilesKey =>
      case ChatHistoryKey =>
    }
  }

  /** The reset button: every entry is deleted, then the session is
      initialised again. */
  function Reset(v: SessionView): (r: SessionView)
    ensures r == InitialView
    ensures ValidState(r)
  {
    Init(v.(keys := {}))
  }

  // ---------------------------------------------------------------- API wrappers

  /** What the transport yields: a response with its HTTP status and its body
      parsed as JSON (None when it is not JSON), or a connection error. */
  datatype HttpOutcome<T> = Response(statusCode: int, json: Option<T>) | ConnectionError

  /** The wrappers' common contract: the parsed body on HTTP 200, None on any
      other status, on a body that is not JSON and on a connection error. */
  function ApiResult<T>(o: HttpOutcome<T>): (r: Option<T>)
    ensures r.Some? <==> o.Response? && o.statusCode == 200 && o.json.Some?
    ensures r.Some? ==> r.value == o.json.value
  {
    match o
    case Response(code, json) => if code == 200 then json else None
    case ConnectionError => None
  }

  /** The `status` and `dataset_id` entries of an upload or parse response,
      as `dict.get` reads them. */
  datatype StatusBody = StatusBody(status: Option<string>, datasetId: Option<string>)

  /** How a JSON status response of the API reads on the client side. */
  function BodyOf(r: RagApi.StatusResponse): StatusBody
  {
    StatusBody(Some(r.status), Some(r.datasetId))
  }

  /** An upload request as it goes out: the uploaded files, the parameters
      of its query string and the fields of its multipart form. */
  datatype UploadForm = UploadForm(files: seq<UploadedFile>, query: map<string, string>, fields: map<string, string>)

  /** The query parameters of a parse request; a None id is left out. */
  datatype ParseForm = ParseForm(datasetId: Option<string>)

  /** The JSON body of a generate request; the dataset id may be null. */
  datatype GeneratePayload = GeneratePayload(
    query: string,
    datasetIds: seq<Option<string>>,
    limit: int,
    similarityThreshold: real,
    model: string)

  /** `upload_dataset_to_api`: sends the files, with the dataset name, the
      naive chunking method and the Mistral embedding model as form fields
      (`data=`) and nothing in the query string. */
  function UploadDatasetToApi(files: seq<UploadedFile>, name: string,
                              send: UploadForm -> HttpOutcome<StatusBody>): (r: Option<StatusBody>)
    ensures var o := send(UploadForm(files, map[], map["name" := name, "chunk_method" := "naive",
                                                      "embedding_model" := "mistral-embed@Mistral"]));
      && (r.Some? <==> o.Response? && o.statusCode == 200 && o.json.Some?)
      && (r.Some? ==> r.value == o.json.value)
  {
    ApiResult(send(UploadForm(files, map[], map["name" := name, "chunk_method" := "naive",
                                                 "embedding_model" := "mistral-embed@Mistral"])))
  }

  /** `parse_documents_api`. */
  function ParseDocumentsApi(datasetId: Option<string>,
                             send: ParseForm -> HttpOutcome<StatusBody>): (r: Option<StatusBody>)
    ensures var o := send(ParseForm(datasetId));
      && (r.Some? <==> o.Response? && o.statusCode == 200 && o.json.Some?)
      && (r.Some? ==> r.value == o.json.value)
  {
    ApiResult(send(ParseForm(datasetId)))
  }

  /** `generate_answer_api`: asks over the one dataset of the session, for at
      most 10 chunks, at similarity threshold 0.1. */
  function GenerateAnswerApi(query: string, datasetId: Option<string>, model: string,
                             send: GeneratePayload -> HttpOutcome<RagApi.GenerateResponse>): (r: Option<RagApi.GenerateResponse>)
    ensures var o := send(GeneratePayload(query, [datasetId], 10, 0.1, model));
      && (r.Some? <==> o.Response? && o.statusCode == 200 && o.json.Some?)
      && (r.Some? ==> r.value == o.json.value)
  {
    ApiResult(send(GeneratePayload(query, [datasetId], 10, 0.1, model)))
  }

  // ---------------------------------------------------------------- transitions

  /** The upload button is shown when files are selected and nothing has
      been uploaded yet. */
  predicate UploadOffered(v: SessionView, selected: seq<UploadedFile>)
  {
    selected != [] && !v.uploaded
  }

  /** The parse button is shown after an upload and before a parse. */
  predicate ParseOffered(v: SessionView)
  {
    v.uploaded && !v.parsed
  }

  /** The generate button is shown once the documents are uploaded and
      parsed, and is enabled for a non-empty query. */
  predicate GenerateOffered(v: SessionView, query: string)
  {
    v.uploaded && v.parsed && query != ""
  }

  predicate StatusIs(result: Option<StatusBody>, status: string)
  {
    result.Some? && result.value.status == Some(status)
  }

  /** A click on the upload button (a no-op when it is not shown). The
      selected files are stored before the call; on a `success` status the
      returned dataset id is recorded and the session is marked uploaded,
      otherwise nothing else changes. */
  function UploadClicked(v: SessionView, selected: seq<UploadedFile>, name: string,
                         send: UploadForm -> HttpOutcome<StatusBody>): (r: SessionView)
    ensures !UploadOffered(v, selected) ==> r == v
    ensures r.keys == v.keys && r.parsed == v.parsed && r.chatHistory == v.chatHistory
    ensures r.uploadedFiles == if UploadOffered(v, selected) then selected else v.uploadedFiles
    ensures var result := UploadDatasetToApi(selected, name, send);
      && (r.uploaded <==> v.uploaded || (UploadOffered(v, selected) && StatusIs(result, "success")))
      && r.datasetId == if !v.uploaded && r.uploaded then result.value.datasetId else v.datasetId
    ensures ValidState(v) ==> ValidState(r)
  {
    if !UploadOffered(v, selected) then v
    else
      var stored := v.(uploadedFiles := selected);
      var result := UploadDatasetToApi(selected, name, send);
      if StatusIs(result, RagApi.UploadSucceeded) then
        stored.(datasetId := result.value.datasetId, uploaded := true)
      else stored
  }

  /** A click on the parse button (a no-op when it is not shown): the session
      is marked parsed on a `parsing_success` status and is otherwise
      unchanged. */
  function ParseClicked(v: SessionView, send: ParseForm -> HttpOutcome<StatusBody>): (r: SessionView)
    ensures r.(parsed := v.parsed) == v
    ensures r.parsed <==>
      v.parsed || (ParseOffered(v) && StatusIs(ParseDocumentsApi(v.datasetId, send), "parsing_success"))
    ensures ValidState(v) ==> ValidState(r)
  {
    if !ParseOffered(v) then v
    else if StatusIs(ParseDocumentsApi(v.datasetId, send), RagApi.ParsingSucceeded) then v.(parsed := true)
    else v
  }

  /** A click on the generate button (a no-op when it is not shown or is
      disabled): an answer appends exactly one turn to the history, and
      nothing else changes; no answer changes nothing. */
  function GenerateClicked(v: SessionView, query: string, model: string, now: real,
                           send: GeneratePayload -> HttpOutcome<RagApi.GenerateResponse>): (r: SessionView)
    ensures r.(chatHistory := v.chatHistory) == v
    ensures var result := GenerateAnswerApi(query, v.datasetId, model, send);
      && (GenerateOffered(v, query) && result.Some? ==>
            r.chatHistory == v.chatHistory + [ChatTurn(query, result.value.answer, result.value.sources, now)])
      && (!(GenerateOffered(v, query) && result.Some?) ==> r == v)
    ensures ValidState(v) ==> ValidState(r)
  {
    if !GenerateOffered(v, query) then v
    else
      match GenerateAnswerApi(query, v.datasetId, model, send)
      case None => v
      case Some(body) =>
        v.(chatHistory := v.chatHistory + [ChatTurn(query, body.answer, body.sources, now)])
  }

  // ---------------------------------------------------------------- runs of the workflow

  /** One user action, with what the transport and the clock give for it. */
  datatype Action =
    | UploadClick(selected: seq<UploadedFile>, name: string, sendUpload: UploadForm -> HttpOutcome<StatusBody>)
    | ParseClick(sendParse: ParseForm -> HttpOutcome<StatusBody>)
    | GenerateClick(query: string, model: string, now: real,
                    sendGenerate: GeneratePayload -> HttpOutcome<RagApi.GenerateResponse>)
    | ResetClick

  function Step(v: SessionView, a: Action): SessionView
  {
    match a
    case UploadClick(selected, name, send) => UploadClicked(v, selected, name, send)
    case ParseClick(send) => ParseClicked(v, send)
    case GenerateClick(query, model, now, send) => GenerateClicked(v, query, model, now, send)
    case ResetClick => Reset(v)
  }

  function Run(v: SessionView, actions: seq<Action>): SessionView
    decreases |actions|
  {
    if actions == [] then v else Run(Step(v, actions[0]), actions[1..])
  }

  /** Every run from a valid state ends in a valid state: parsed implies
      uploaded, and a non-empty history implies parsed. */
  lemma {:induction false} RunKeepsValid(v: SessionView, actions: seq<Action>)
    requires ValidState(v)
    ensures ValidState(Run(v, actions))
    decreases |actions|
  {
    if actions != [] {
      var w := Step(v, actions[0]);
      assert ValidState(w);
      RunKeepsValid(w, actions[1..]);
    }
  }

  /** A fresh session, once initialised, is valid in every reachable state. */
  lemma ReachableStatesValid(v: SessionView, actions: seq<Action>)
    requires v.keys == {}
    ensures ValidState(Run(Init(v), actions))
  {
    InitEstablishesValid(v);
    RunKeepsValid(Init(v), actions);
  }

  /** Without a reset the chat history only grows: the old history is a
      prefix of the new one. */
  lemma {:induction false} HistoryGrowsWithoutReset(v: SessionView, actions: seq<Action>)
    requires forall k :: 0 <= k < |actions| ==> !actions[k].ResetClick?
    ensures v.chatHistory <= Run(v, actions).chatHistory
    decreases |actions|
  {
    if actions != [] {
      var w := Step(v, actions[0]);
      assert v.chatHistory <= w.chatHistory;
      HistoryGrowsWithoutReset(w, actions[1..]);
    }
  }

  /** Without a reset, a session once parsed stays parsed, and one once
      uploaded keeps its dataset id. */
  lemma {:induction false} ProgressIsKept(v: SessionView, actions: seq<Action>)
    requires forall k :: 0 <= k < |actions| ==> !actions[k].ResetClick?
    ensures v.parsed ==> Run(v, actions).parsed
    ensures v.uploaded ==> Run(v, actions).uploaded && Run(v, actions).datasetId == v.datasetId
    decreases |actions|
  {
    if actions != [] {
      ProgressIsKept(Step(v, actions[0]), actions[1..]);
    }
  }

  /** How `/upload-dataset/` binds its scalar parameters: each from the
      query string of the request, under its own name; the form fields are
      not consulted. */
  function UploadQueryOf(form: UploadForm): (q: RagApi.UploadQuery)
    ensures q.name.Some? <==> "name" in form.query
    ensures q.name.Some? ==> q.name.value == form.query["name"]
    ensures q.chunkMethod.Some? <==> "chunk_method" in form.query
    ensures q.chunkMethod.Some? ==> q.chunkMethod.value == form.query["chunk_method"]
    ensures q.embeddingModel.Some? <==> "embedding_model" in form.query
    ensures q.embeddingModel.Some? ==> q.embeddingModel.value == form.query["embedding_model"]
  {
    RagApi.UploadQuery(
      if "name" in form.query then Some(form.query["name"]) else None,
      if "chunk_method" in form.query then Some(form.query["chunk_method"]) else None,
      if "embedding_model" in form.query then Some(form.query["embedding_model"]) else None)
  }

  /** The form fields of an upload never change the parameters the endpoint
      binds. */
  lemma UploadQueryIgnoresFields(form: UploadForm, fields: map<string, string>)
    ensures UploadQueryOf(form.(fields := fields)) == UploadQueryOf(form)
  {
  }

  /** Sent in the query string, as `params=` would send them, the name,
      chunking method and embedding model do reach the dataset. */
  lemma QueryParametersReachDataset(files: seq<UploadedFile>, name: string, fields: map<string, string>)
    ensures var query := map["name" := name, "chunk_method" := "naive",
                             "embedding_model" := "mistral-embed@Mistral"];
      RagApi.SettingsOf(UploadQueryOf(UploadForm(files, query, fields)))
        == RagApi.DatasetSettings(name, "naive", "mistral-embed@Mistral")
  {
  }

  /** End to end: the client sends the settings as form fields, so whatever
      name the user types, the dataset the API creates for the client's
      upload has the endpoint's default settings. */
  lemma UploadedDatasetHasDefaultSettings(files: seq<UploadedFile>, name: string)
    ensures var form := UploadForm(files, map[], map["name" := name, "chunk_method" := "naive",
                                                     "embedding_model" := "mistral-embed@Mistral"]);
      RagApi.SettingsOf(UploadQueryOf(form)) == RagApi.DatasetSettings("test_dataset", "naive", "mistral-embed@Mistral")
  {
  }

  /** End to end: when the API creates a dataset, a click on the upload
      button records its id. */
  lemma UploadRecordsCreatedDataset(v: SessionView, selected: seq<UploadedFile>, name: string,
                                    send: UploadForm -> HttpOutcome<StatusBody>,
                                    createDataset: RagApi.DatasetSettings -> Option<string>, id: string)
    requires UploadOffered(v, selected)
    requires createDataset(RagApi.DatasetSettings("test_dataset", "naive", "mistral-embed@Mistral")) == Some(id)
    requires var form := UploadForm(selected, map[], map["name" := name, "chunk_method" := "naive",
                                                         "embedding_model" := "mistral-embed@Mistral"]);
      send(form) == Response(200, Some(BodyOf(RagApi.UploadDatasetEndpoint(UploadQueryOf(form), createDataset).value)))
    ensures UploadClicked(v, selected, name, send).uploaded
    ensures UploadClicked(v, selected, name, send).datasetId == Some(id)
  {
    UploadedDatasetHasDefaultSettings(selected, name);
  }

  /** End to end: the session is marked parsed whenever the dataset and its
      documents can be listed, even when the document service failed to parse
      them, because the parse endpoint reports success regardless. */
  lemma ParsedEvenWhenParsingFailed(v: SessionView, send: ParseForm -> HttpOutcome<StatusBody>,
                                    id: string, message: string)
    requires ParseOffered(v) && v.datasetId == Some(id)
    requires send(ParseForm(Some(id)))
             == Response(200, Some(BodyOf(RagApi.ParseDocumentsEndpoint(id, true, true, RagApi.Failed(message)).value)))
    ensures ParseClicked(v, send).parsed
  {
  }

  // ---------------------------------------------------------------- history rendering

  /** The heading of an expander of the chat history. */
  datatype ExpanderHeading = ExpanderHeading(caption: string, expanded: bool)

  /** The label of the `i`-th turn (counting from 0): its 1-based number and
      the first 50 characters of the question, always followed by an
      ellipsis. */
  function HistoryLabel(i: nat, query: string): (r: string)
    ensures |r| == |"Вопрос "| + |NatToString(i + 1)| + |": "| + Min(50, |query|) + 3
    ensures r == "Вопрос " + NatToString(i + 1) + ": " + Take(query, 50) + "..."
    ensures |query| <= 50 ==> r == "Вопрос " + NatToString(i + 1) + ": " + query + "..."
  {
    "Вопрос " + NatToString(i + 1) + ": " + Ellipsized(query, 50)
  }

  /** A number written before ": " can be read back off the text. */
  lemma DigitsBeforeColon(a: string, b: string, x: string, y: string)
    requires AllDigits(a) && AllDigits(b)
    requires a + ": " + x == b + ": " + y
    ensures a == b
  {
    var s, t := a + ": " + x, b + ": " + y;
    assert s[|a|] == ':' && t[|b|] == ':';
    assert forall k :: 0 <= k < |a| ==> IsDigit(s[k]);
    assert forall k :: 0 <= k < |b| ==> IsDigit(t[k]);
    assert s[..|a|] == a && t[..|b|] == b;
  }

  /** Texts that differ in the number after a common prefix differ. */
  lemma NumberedTextsDiffer(p: string, a: string, b: string, x: string, y: string)
    requires AllDigits(a) && AllDigits(b) && a != b
    ensures p + a + ": " + x + "..." != p + b + ": " + y + "..."
  {
    var l1, l2 := p + a + ": " + x + "...", p + b + ": " + y + "...";
    if l1 == l2 {
      assert l1 == p + (a + ": " + (x + "..."));
      assert l2 == p + (b + ": " + (y + "..."));
      assert l1[|p|..] == a + ": " + (x + "...");
      assert l2[|p|..] == b + ": " + (y + "...");
      DigitsBeforeColon(a, b, x + "...", y + "...");
    }
  }

  /** Turns at different positions get different labels, whatever their
      questions. */
  lemma HistoryLabelsDistinct(i: nat, j: nat, q1: string, q2: string)
    requires i != j
    ensures HistoryLabel(i, q1) != HistoryLabel(j, q2)
  {
    var a, b := NatToString(i + 1), NatToString(j + 1);
    if a == b {
      NatToStringInjective(i + 1, j + 1);
    }
    NumberedTextsDiffer("Вопрос ", a, b, Take(q1, 50), Take(q2, 50));
  }

  /** The loop that renders the history: one expander per turn, in order,
      and only the last one expanded. */
  method RenderHistory(history: seq<ChatTurn>) returns (headings: seq<ExpanderHeading>)
    ensures |headings| == |history|
    ensures forall i :: 0 <= i < |history| ==> headings[i].caption == HistoryLabel(i, history[i].query)
    ensures forall i :: 0 <= i < |history| ==> (headings[i].expanded <==> i == |history| - 1)
  {
    headings := [];
    var i := 0;
    while i < |history|
      invariant 0 <= i <= |history|
      invariant |headings| == i
      invariant forall k :: 0 <= k < i ==> headings[k].caption == HistoryLabel(k, history[k].query)
      invariant forall k :: 0 <= k < i ==> (headings[k].expanded <==> k == |history| - 1)
    {
      headings := headings + [ExpanderHeading(HistoryLabel(i, history[i].query), i == |history| - 1)];
      i := i + 1;
    }
  }

  // ---------------------------------------------------------------- the session object

  /** The session state of one browser session, updated in place by the
      script's initialisation and by the button handlers. */
  class Session {
    var keys: set<Key>
    var datasetId: Option<string>
    var uploaded: bool
    var parsed: bool
    var uploadedFiles: seq<UploadedFile>
    var chatHistory: seq<ChatTurn>

    function View(): SessionView
      reads this
    {
      SessionView(keys, datasetId, uploaded, parsed, uploadedFiles, chatHistory)
    }

    predicate Valid()
      reads this
    {
      ValidState(View())
    }

    /** A new browser session: the state holds no entries yet. */
    constructor ()
      ensures keys == {}
    {
      keys := {};
      datasetId := None;
      uploaded, parsed := false, false;
      uploadedFiles, chatHistory := [], [];
    }

    /** `init_session_state`, run at the top of every script run. */
    method InitSessionState()
      modifies this
      ensures keys == AllKeys
      ensures datasetId == if DatasetIdKey in old(keys) then old(datasetId) else None
      ensures uploaded == (UploadedKey in old(keys) && old(uploaded))
      ensures parsed == (ParsedKey in old(keys) && old(parsed))
      ensures uploadedFiles == if UploadedFilesKey in old(keys) then old(uploadedFiles) else []
      ensures chatHistory == if ChatHistoryKey in old(keys) then old(chatHistory) else []
      ensures View() == Init(old(View()))
      ensures Consistent(old(View())) ==> Valid()
    {
      var present := keys;
      if DatasetIdKey !in present {
        datasetId := None;
        present := present + {DatasetIdKey};
      }
      if UploadedKey !in present {
        uploaded := false;
        present := present + {UploadedKey};
      }
      if ParsedKey !in present {
        parsed := false;
        present := present + {ParsedKey};
      }
      if UploadedFilesKey !in present {
        uploadedFiles := [];
        present := present + {UploadedFilesKey};
      }
      if ChatHistoryKey !in present {
        chatHistory := [];
        present := present + {ChatHistoryKey};
      }
      AllKeysPresent(present);
      keys := present;
    }

    /** The reset button: delete the entries one by one, then initialise. */
    method ResetSession()
      modifies this
      ensures View() == Reset(old(View()))
      ensures View() == InitialView && Valid()
    {
      while keys != {}
        invariant View() == old(View()).(keys := keys)
        decreases |keys|
      {
        var k :| k in keys;
        keys := keys - {k};
      }
      InitSessionState();
    }

    method ClickUpload(selected: seq<UploadedFile>, name: string, send: UploadForm -> HttpOutcome<StatusBody>)
      modifies this
      ensures View() == UploadClicked(old(View()), selected, name, send)
      ensures old(Valid()) ==> Valid()
    {
      if selected != [] && !uploaded {
        uploadedFiles := selected;
        var result := UploadDatasetToApi(selected, name, send);
        if result.Some? && result.value.status == Some(RagApi.UploadSucceeded) {
          datasetId := result.value.datasetId;
          uploaded := true;
        }
      }
    }

    method ClickParse(send: ParseForm -> HttpOutcome<StatusBody>)
      modifies this
      ensures View() == ParseClicked(old(View()), send)
      ensures old(Valid()) ==> Valid()
    {
      if uploaded && !parsed {
        var result := ParseDocumentsApi(datasetId, send);
        if result.Some? && result.value.status == Some(RagApi.ParsingSucceeded) {
          parsed := true;
        }
      }
    }

    method ClickGenerate(query: string, model: string, now: real,
                         send: GeneratePayload -> HttpOutcome<RagApi.GenerateResponse>)
      modifies this
      ensures View() == GenerateClicked(old(View()), query, model, now, send)
      ensures old(Valid()) ==> Valid()
    {
      if uploaded && parsed && query != "" {
        var result := GenerateAnswerApi(query, datasetId, model, send);
        if result.Some? {
          chatHistory := chatHistory + [ChatTurn(query, result.value.answer, result.value.sources, now)];
        }
      }
    }
  }
}
