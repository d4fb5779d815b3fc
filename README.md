# ScienceRAG core, modelled in Dafny

ScienceRAG answers questions over a collection of scientific documents. It has three parts:

- an HTTP API that uploads and parses datasets and answers questions by retrieval-augmented generation;
- a browser client that walks a user through upload, parse and question answering;
- a preprocessing script that flattens parsed papers into plain text.

The model covers the logic these three parts own. The document service, the completion service, the HTTP transport and the file system are function parameters, so each stands for whatever it may return.

- `base.dfy` (module `Base`) holds the Python string operations the three parts use:
  - slicing `s[:n]` and `s[:-k]`;
  - `s[:n] + "..."`;
  - `sep.join`;
  - `str.split` for one character;
  - `str(n)` for a natural number, with its parser `int(s)`, proved to invert it.
- `rag_api.dfy` (module `RagApi`, `docker/app.py`) covers:
  - request validation with its defaults;
  - the prompt built from retrieved chunks;
  - the shaping of the `/generate/` response: the answer, the source names, and `prompt_used`;
  - the settings of the dataset `/upload-dataset/` creates, and the bodies returned by `/upload-dataset/` and `/parse-documents/`.
- `gui.dfy` (module `Gui`, `gui.py`) covers:
  - the session state, as the value `SessionView`;
  - the guarded transitions of the upload, parse, generate and reset buttons, as functions on that value;
  - the three API wrappers, including their None-on-failure contract;
  - the rendering loop that labels the chat-history expanders.
  - The class `Session` holds the same state in fields. Its methods update the fields in place and are proved to follow the transition functions.
- `cleaner.dfy` (module `Cleaner`, `DataPreprocessing/cleaner.py`) covers:
  - the text written for one JSON record, as loop methods proved against the specification function `RecordText`, including a record that lacks a key and leaves a partly written file;
  - the output file name;
  - the `converted` directory;
  - the script's loop over the directory listing, proved against the recursive function `Conversion`.

A few behaviours of the source, stated as proved:

- Upload failures:
  - a failed upload still stores the selected files in the session (`UploadClicked`);
  - the upload response's `dataset_id` may be absent, and is then stored as None.
- The dataset name typed in the client never reaches the dataset.
  - The upload request is modelled with its query string and its form fields apart.
  - The client puts name, chunk method and embedding model in the form fields (`data=`), and the endpoint binds those parameters from the query string (`UploadQueryOf`).
  - So every dataset the client uploads gets the endpoint's default settings, `test_dataset`, `naive` and `mistral-embed@Mistral` (`UploadedDatasetHasDefaultSettings`).
  - The same values sent in the query string would reach the dataset (`QueryParametersReachDataset`).
- Two listed names that differ only in their last five characters, such as `a.json` and `a.JSON`, share one output file. The later one overwrites the earlier (`SameStemSameOutput`). Distinct `.json` names get distinct files (`ConversionPathsDistinct`).
- Parsing failures:
  - the parse endpoint reports `parsing_success` whatever the parse outcome;
  - so the client marks a session parsed even when the document service failed to parse it (`ParsedEvenWhenParsingFailed`).
- The `converted` directory replaces the last `/`-separated component of the input directory:
  - a directory right below the root, such as `/corpus`, gives the relative path `converted`;
  - a path without any slash also gives `converted` (`ConvertedDirReplacesLastComponent`).
- A JSON record without `title`, `abstract` or `sections`, or with a section other than the last lacking `text`, stops the script. Its output file has already been created, and keeps what was written before the missing key (`RecordText`, `PartialTextIsPrefix`).

## Model

| member | source | states |
|---|---|---|
| RagApi.ParseRetrieveRequest | docker/app.py:17-21 | a retrieve body is accepted exactly when `query` and `dataset_ids` are given and neither `limit` nor `similarity_threshold` is `null`; given values are kept, a left-out `limit` is 10 and a left-out `similarity_threshold` 0.2 |
| RagApi.ParseGenerateRequest | docker/app.py:23-24 | a generate body is accepted exactly when it is a valid retrieve body whose `model` is given and not `null`; its retrieve part is the retrieve validation of the same body |
| RagApi.ChunkEntry | docker/app.py:106 | chunk `i` contributes the heading `Document i+1:` and a newline, then the first min(500, length) characters of its content, then `...`; content of at most 500 characters is kept whole and still gets `...` |
| RagApi.Entries | docker/app.py:105-108 | there is one entry per chunk, and entry `i` is chunk `i`'s entry numbered `i+1`, in retrieval order |
| RagApi.ContextOfFewChunks | docker/app.py:105-108 | `RagApi.Context` joins the entries with blank lines: no chunks give an empty context; one chunk gives exactly its entry, with no separator |
| RagApi.ContextSnoc | docker/app.py:105-108 | a further chunk extends `RagApi.Context` by exactly a blank line and its own entry, numbered after the others |
| RagApi.ContextPrefix | docker/app.py:105-108 | `RagApi.Context` of the first `k` chunks is a prefix of the context of all chunks, so entries are never reordered or rewritten |
| RagApi.BuildRagPrompt | docker/app.py:104-119 | the prompt starts with the fixed head of the template, ends with its fixed tail, and its length is the template's plus the context's plus the query's |
| RagApi.QueryRoundTrip | docker/app.py:113-115 | the query can be read back whole and unmodified from the prompt; only chunk contents are cut |
| RagApi.PromptDeterminesQuery | docker/app.py:110-117 | over the same chunks, equal prompts mean equal queries |
| RagApi.PromptUsed | docker/app.py:142 | `prompt_used` is the first min(500, length) characters of the prompt plus `...`, so it is at most 503 characters long |
| RagApi.Sources | docker/app.py:130 | there is one source name per chunk, in chunk order, each looked up in the first dataset id; the dataset list is consulted only when there is a chunk; a missing dataset id or document fails the request |
| RagApi.GenerateAnswer | docker/app.py:121-143 | `/generate/` fails when retrieval fails; after a retrieval it succeeds exactly when every source is found and the completion service answers; the answer is the completion of the built prompt with the request's model; the sources are in chunk order; `prompt_used` is the cut prompt, at most 503 characters |
| RagApi.SettingsOf | docker/app.py:55-59 | each setting of the new dataset is the query's value when the query carries one, else its default: name `test_dataset`, chunk method `naive`, embedding model `mistral-embed@Mistral` |
| RagApi.UploadDatasetEndpoint | docker/app.py:54-81 | the upload succeeds exactly when the document service creates a dataset with the settings `SettingsOf` gives for the query, and then reports `success` with that dataset's id |
| RagApi.ParseDocumentsEndpoint | docker/app.py:86-91 | the parse call fails exactly when the dataset cannot be looked up or listing its documents raises; otherwise it reports `parsing_success` with the id it was given, whatever the parse outcome |
| Gui.Session.InitSessionState | gui.py:22-32 | every entry ends up present; an entry that was present keeps its value; a missing one gets its default (None, false, false, empty, empty); the new state is `Gui.Init` of the old, and it is valid when the old one was consistent |
| Gui.InitKeepsPresentEntries | gui.py:22-32 | on a session where every entry is present, initialisation (`Gui.Init`) changes nothing |
| Gui.InitIdempotent | gui.py:22-34 | initialising twice is initialising once |
| Gui.InitEstablishesValid | gui.py:22-32 | initialising a consistent, partially filled session gives a valid one: all entries present, parsed implies uploaded, and a non-empty history implies parsed |
| Gui.Reset | gui.py:157-161 | reset gives the initial session (no dataset id, neither uploaded nor parsed, no files, no history) from any state, and that state is valid |
| Gui.Session.ResetSession | gui.py:157-160 | deleting every entry one by one and re-initialising leaves the fields at the initial session |
| Gui.ApiResult | gui.py:64-71 | a wrapper yields the parsed body exactly when the status is 200 and the body is JSON; any other status, a non-JSON body or a connection error gives None |
| Gui.UploadDatasetToApi | gui.py:45-71 | the upload wrapper sends the files, with the name, chunk method `naive` and embedding model `mistral-embed@Mistral` as form fields and an empty query string; it returns a body exactly when that request gets status 200 with a JSON body, and then returns that body |
| Gui.UploadQueryOf | docker/app.py:55-59 | the endpoint binds `name`, `chunk_method` and `embedding_model` from the request's query string, each under its own name, and a parameter is missing exactly when the query does not carry it |
| Gui.UploadQueryIgnoresFields | docker/app.py:55-59 | the form fields of an upload never change the parameters the endpoint binds |
| Gui.QueryParametersReachDataset | docker/app.py:55-59 | name, chunk method and embedding model sent in the query string become the settings of the created dataset |
| Gui.UploadedDatasetHasDefaultSettings | gui.py:51-63 | for the request the client sends, with the three values as form fields and an empty query string, the created dataset has the name `test_dataset`, chunk method `naive` and embedding model `mistral-embed@Mistral`, whatever name the user types |
| Gui.ParseDocumentsApi | gui.py:73-88 | the parse wrapper sends the session's dataset id; it returns a body exactly when that request gets status 200 with a JSON body, and then returns that body |
| Gui.GenerateAnswerApi | gui.py:90-113 | the generate wrapper asks over the one session dataset, with limit 10, threshold 0.1 and the chosen model; it returns a body exactly when that request gets status 200 with a JSON body, and then returns that body |
| Gui.UploadClicked | gui.py:185-202 | the upload click is a no-op unless files are selected and nothing is uploaded yet; otherwise the files are stored first; `uploaded` becomes true exactly on a `success` status, with the returned dataset id recorded; nothing else changes, and validity is kept |
| Gui.ParseClicked | gui.py:204-218 | the parse click changes at most `parsed`; `parsed` becomes true exactly when the session was uploaded and not yet parsed and the status is `parsing_success`; validity is kept |
| Gui.GenerateClicked | gui.py:220-270 | the generate click changes at most the history; on an uploaded and parsed session with a non-empty query and an answer, exactly one turn (query, answer, sources, time) is appended after the old history; otherwise the state is unchanged |
| Gui.RunKeepsValid | gui.py:157-270 | every sequence of clicks, resets included, keeps a valid state valid |
| Gui.ReachableStatesValid | gui.py:22-34 | a fresh session, once initialised, is valid in every state any sequence of clicks reaches |
| Gui.HistoryGrowsWithoutReset | gui.py:263-270 | without a reset the old chat history is always a prefix of the new one |
| Gui.ProgressIsKept | gui.py:185-218 | without a reset a parsed session stays parsed, and an uploaded one stays uploaded with the same dataset id |
| Gui.UploadRecordsCreatedDataset | gui.py:194-198 | when the API creates a dataset with the default settings, an offered upload click marks the session uploaded with that dataset's id |
| Gui.ParsedEvenWhenParsingFailed | gui.py:210-213 | when the document service fails to parse an existing dataset, the parse click still marks the session parsed |
| Gui.HistoryLabel | gui.py:234 | a history label is exactly `Вопрос `, the decimal 1-based turn number, `: `, the first min(50, length) characters of the question and `...`; a short question is kept whole |
| Gui.HistoryLabelsDistinct | gui.py:233-234 | turns at different positions always have different labels |
| Gui.RenderHistory | gui.py:233-234 | rendering gives one expander per turn, in order, labelled as above, with only the last one expanded |
| Gui.Session.ClickUpload | gui.py:185-198 | the fields follow `UploadClicked`, and a valid session stays valid |
| Gui.Session.ClickParse | gui.py:205-213 | the fields follow `ParseClicked`, and a valid session stays valid |
| Gui.Session.ClickGenerate | gui.py:255-270 | the fields follow `GenerateClicked`, and a valid session stays valid |
| Cleaner.TextPrefix | DataPreprocessing/cleaner.py:18-21 | the count of leading section entries that have a text: all entries before it have one, and the entry at it, if any, has none |
| Cleaner.Texts | DataPreprocessing/cleaner.py:18-21 | entries that all have a text give one section per entry, in order, holding that text |
| Cleaner.WriteSections | DataPreprocessing/cleaner.py:18-21 | the section writes produce the text of each entry, in order, up to the first entry without a text; they finish exactly when every entry has one |
| Cleaner.WriteText | DataPreprocessing/cleaner.py:15-21 | the writes to one output file produce `Cleaner.RecordText` of the record: title, abstract and each section but the last, each followed by a blank line, cut at the first missing key; they finish exactly when the record has every key read (`Cleaner.Finishes`) |
| Cleaner.RecordTextOfPaper | DataPreprocessing/cleaner.py:15-21 | a record has every key read exactly when it describes a paper, and its file then holds that paper's `Cleaner.FlatText` |
| Cleaner.PartialTextIsPrefix | DataPreprocessing/cleaner.py:15-17 | a record lacking the title, the abstract or the sections leaves a prefix of the text of a record that agrees with it and has them |
| Cleaner.SectionsTextLength | DataPreprocessing/cleaner.py:18-21 | the sections part is as long as the section texts plus two characters per section |
| Cleaner.FlatTextLength | DataPreprocessing/cleaner.py:16-21 | `Cleaner.FlatText`, the text of a paper, is as long as the title, the abstract and the first n-1 section texts, plus 2·(2 + max(n-1, 0)) |
| Cleaner.LastSectionIgnored | DataPreprocessing/cleaner.py:18 | the last section is never written: replacing it leaves `Cleaner.FlatText` unchanged |
| Cleaner.FewSections | DataPreprocessing/cleaner.py:18 | with 0 or 1 sections `Cleaner.FlatText` is just the title and the abstract, each followed by a blank line |
| Cleaner.SectionsInOrder | DataPreprocessing/cleaner.py:18-21 | a section added before the last one appears in `Cleaner.FlatText` right after the sections already written, in order |
| Cleaner.ConvertedDirReplacesLastComponent | DataPreprocessing/cleaner.py:12 | the output directory `Cleaner.ConvertedDir` is the input directory with its last `/`-separated component replaced by `converted`; with no slash it is `converted` |
| Cleaner.ConvertedDirIsSibling | DataPreprocessing/cleaner.py:12 | for a directory `parent/last`, the output directory `Cleaner.ConvertedDir` is `parent/converted`; for example `./open_ragbench/pdf/arxiv/corpus` gives `./open_ragbench/pdf/arxiv/converted` |
| Cleaner.OutputName | DataPreprocessing/cleaner.py:15 | the output name is the input name without its last five characters, followed by `.txt` |
| Cleaner.OutputNameOfJson | DataPreprocessing/cleaner.py:15 | `x.json` is written as `x.txt` |
| Cleaner.OutputPathOfJson | DataPreprocessing/cleaner.py:15 | `Cleaner.OutputPath` puts a listed `x.json` at `converted/x.txt` next to the input directory |
| Cleaner.FirstFailure | DataPreprocessing/cleaner.py:7-21 | the position of the first listed file that does not load or whose record lacks a key: every file before it converts, and the one at it, if any, does not |
| Cleaner.ConversionLength | DataPreprocessing/cleaner.py:7-21 | the script gets to the end exactly when every listed file loads and has every key read, and then makes one write per input; otherwise it stops at the first file that does not, having made one write for each file before it, plus a partial write for that file when it loads |
| Cleaner.ConversionAt | DataPreprocessing/cleaner.py:7-21 | the `k`-th write belongs to the `k`-th listed file, which loads: its `Cleaner.OutputPath` and the `Cleaner.RecordText` of its record |
| Cleaner.ConversionHead | DataPreprocessing/cleaner.py:7-21 | something is written only when the first listed file loads, and the first write is that file's; a second write means the script got through the first file and went on with the rest |
| Cleaner.SameStemSameOutput | DataPreprocessing/cleaner.py:15 | names that differ only in their last five characters, such as `a.json` and `a.JSON`, get the same `Cleaner.OutputPath`, so the later one's write replaces the earlier file |
| Cleaner.OutputPathInjective | DataPreprocessing/cleaner.py:15 | two `.json` names with non-empty stems and no slash get the same `Cleaner.OutputPath` only when they are the same name |
| Cleaner.ConversionPathsDistinct | DataPreprocessing/cleaner.py:7-21 | in a listing, writes for two distinct `.json` names go to distinct paths, so each such input has a file of its own |
| Cleaner.ConvertFile | DataPreprocessing/cleaner.py:8-21 | one iteration creates an output file exactly when the file loads, and writes the record's text up to its first missing key there; it gets through exactly when the record has every key read |
| Cleaner.ConvertCorpus | DataPreprocessing/cleaner.py:6-21 | the loop over the listing writes exactly the files, and reports exactly the completion, that `Cleaner.Conversion` specifies |

## Left out

- The retrieve endpoint (docker/app.py:94-102) hands the request to the document service and returns what it gives. It has no logic of its own to state.
- The health check, the start-up of the service clients (`lifespan`), `txt2bin`, and the `print` of document ids in `/generate/` are left out. These are I/O or logging.
- The temporary directory that stages uploaded files is left out: the writes and the cleanup. The document service's whole dataset creation and upload is the parameter `createDataset`.
- `docker/backend.py` is not part of this model. Its behaviour reaches the model only through parameters:
  - `createDataset`, for creating a dataset and uploading to it;
  - `datasetFound` and `documentsListed`, for the calls before the parse call, which raise;
  - `ParseOutcome`, for the parse call, whose failures the backend swallows;
  - `retrieve`, for retrieval.
- The smoke scripts `Artifacts/test_api.py` are not part of this model.
- Streamlit rendering is left out: layout, sidebar status, spinners, balloons, error messages, CSS, and `st.rerun`. The sidebar's embedding-model choice is never sent, and is left out too.
- Time is a parameter: the clock value stored in a chat turn (`now`), and the default dataset name built from the time.
- Similarity thresholds are `real` values that are only carried along. They are never computed with. The `limit` is an unbounded integer.
- Gui.GenerateAnswerApi: the body is typed as a generate response, so two cases are not represented:
  - an empty JSON object, which the client treats as no answer;
  - a body without `answer` or `sources`, on which the client raises.
- Gui.UploadDatasetToApi, Gui.ParseDocumentsApi: the HTTP timeouts are part of the transport parameter.
- Cleaner.ConvertCorpus: covers several things the script does as parameters or leaves out.
  - Reading and decoding the JSON files is the parameter `load`. A file that cannot be read or decoded is `None`, and stops the script before its output file is created. A missing key is part of the model.
  - The file writes are returned as a list, not performed. Each entry is what one input writes to its output file.
  - Overwriting is not applied to that list. Two inputs whose names share all but the last five characters write to one path, and the later entry is what the file finally holds (`SameStemSameOutput`).
  - `os.makedirs` is left out.
  - The progress bar is left out.
  - The directory listing is the parameter `files`, in whatever order the file system gives.
- Cleaner.JoinPath: models POSIX `os.path.join` on two arguments. This covers an absolute second argument, an empty first argument, and a trailing slash.
- RagApi.ParseRetrieveRequest, RagApi.ParseGenerateRequest: a field is modelled as absent, `null`, or a value of its declared type. Three cases are not modelled:
  - values of another JSON type, such as `"query": 5`, which the request models reject;
  - `null` items inside `dataset_ids`;
  - the conversions the request models apply, such as `"5"` to 5 for `limit`.
- JSON values of other types than the cleaning script expects are left out. A title that is not a string, which the f-string would format, or a `sections` value that is not a list, are examples.
- RagApi.ParseDocumentsEndpoint: kept as written. Parse failures are reported as `parsing_success` because the backend swallows them. No corrected endpoint is modelled, because the intended failure reporting is not stated anywhere in the source.
