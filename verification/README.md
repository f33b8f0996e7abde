# Document question-answering backend: decision logic

This project models the decision logic of a small document question-answering
service. The service comes in two near-duplicate FastAPI variants:

- `Backend/backend/main.py` has no authentication.
- `Backend/backend/Mock.py` adds bearer-token authentication and passes the
  caller's chat history through to the chain.

Almost everything else in the service is delegated to libraries: LangChain
loaders, the text splitter, OpenAI embeddings, FAISS and the conversational
retrieval chain. Each library call is therefore an abstract outcome: a value,
or an exception that carries a class (`ValueError` or other) and a message.

Modules, one per component:

- `Outcomes` (outcomes.dfy): `Option`, `Result`, `Outcome`, and the exception
  record `Exc`.
- `Http` (http.dfy): responses, which are either a 200 body, an
  `HTTPException` with status and detail, or an unhandled exception (plain 500).
- `Text` (text.dfy): the Python string operations the handlers rely on,
  namely `str.isspace`/`strip`, `lower` and `split('.')[-1]`.
- `Loader` (loader.dfy): `get_loader_for_file`, which is textually identical in
  both files and defined once here, and the staging path
  `os.path.join("uploads", filename)`.
- `Session` (session.dfy): the two globals `vector_store` and `qa_chain`, the
  outcomes of an upload's steps, and the pipeline both upload handlers run
  after saving the file. The pipeline is `Process`: select loader, load,
  split, build the index, assign `vector_store`, build the chain, assign
  `qa_chain`.
- `MainApi` (main_api.dfy): main.py's `upload_file` and `ask_question` as
  transitions, and request sequences.
- `Auth` (auth.dfy): Mock.py's token claims, `login` and `get_current_user`.
  JWT decoding is an oracle `Token -> DecodeResult`.
- `MockApi` (mock_api.dfy): Mock.py's `upload_file` and `ask_question`, and
  request sequences. Each handler takes the result of its `get_current_user`
  dependency as a parameter, because FastAPI resolves the dependency before the
  handler runs. The lemmas apply both the dependency as written and the
  corrected one.

Behaviour the model commits to, because the code does:

- The two handles are assigned one after the other. One would expect the
  pair to be replaced together. In the code, the index is installed before the
  chain is built, so if the chain build fails, the new index sits beside the
  old chain. `Session.ChainFailureBreaksCoherence` exhibits this half-replaced
  state.
- main.py checks readiness before checking for a blank question.
- An unsupported format gets 400 from main.py but 500 from Mock.py, because
  Mock.py's only `except` clause is `except Exception`. Mock.py also has no
  blank-question check.
- One would expect every authentication failure to be a 401. Mock.py's code as
  written turns every refused token into a 500; see "## Findings".
- Mock.py saves the upload outside its `try`/`finally`. A failed save therefore
  escapes unhandled, and if `open` created the file before the copy failed,
  the file is left in the staging directory. main.py always removes it.
- A missing bearer token is refused by FastAPI's `OAuth2PasswordBearer` with
  401 "Not authenticated", before `get_current_user` runs.

## Model

| member | source | states |
|---|---|---|
| Text.Strip | Backend/backend/main.py:123 | `question.strip()` is empty exactly when every character is Python whitespace; otherwise it starts and ends with a non-whitespace character |
| Text.Lower | Backend/backend/main.py:33 | `.lower()` keeps the length, maps each character on its own (ASCII letters to lower case, everything else unchanged) |
| Text.LowerLeavesNoUpperCase | Backend/backend/main.py:33 | after `.lower()` no upper-case ASCII letter remains, so the comparisons that follow only ever see lower-case letters |
| Text.Split | Backend/backend/main.py:33 | `split(".")` always yields at least one piece |
| Text.SplitPiecesSeparatorFree | Backend/backend/main.py:33 | no piece of `split(".")` contains a `.` |
| Text.LastSegment | Backend/backend/main.py:33 | `path.split(".")[-1]` is the longest suffix of the path without a `.`: it is the whole path, or it is directly preceded by a `.` |
| Text.JoinSplit | Backend/backend/main.py:33 | splitting on `.` loses nothing: joining the pieces with `.` gives back the path |
| Text.LastSegmentAfterSeparator | Backend/backend/main.py:33 | whatever precedes the last `.` does not affect the extension |
| Loader.StagingPath | Backend/backend/main.py:67 | `os.path.join("uploads", filename)` ends with the file name; it is `uploads/` + the name for a relative name, and the name itself for an absolute one |
| Loader.StagingKeepsExtension | Backend/backend/Mock.py:120-126 | for a file name containing a `.`, the staging path handed to the classifier has the same extension as the name itself |
| Loader.LoaderForFile | Backend/backend/main.py:32-43 | the lower-cased extension selects its loader from the table pdf→PDF, docx/doc→Word, txt→text, csv→CSV; any other extension raises `ValueError("Unsupported file format: " + ext)` |
| Loader.SupportedExtensionsSelectTheirLoader | Backend/backend/Mock.py:84-95 | Mock.py's copy of the classifier: each supported extension, in any letter case and after any stem, selects its loader; any other extension is rejected with a message naming it, lower-cased |
| Loader.ClassificationIgnoresCase | Backend/backend/main.py:33 | names whose final extensions differ only in letter case get the same loader or the same error |
| Loader.TrailingDotRejected | Backend/backend/main.py:33-43 | a name ending in `.` has the empty extension and is rejected with "Unsupported file format: " |
| Loader.DotlessNameRejected | Backend/backend/main.py:33-43 | a relative name with no `.` makes the whole staging path `uploads/<name>`, lower-cased, the extension, and it is rejected with that path in the message |
| Session.Process | Backend/backend/main.py:74-101 | the pipeline succeeds exactly when every step does, and then installs the new index and a chain bound to it; a failing loader selection, load, split or index build is reported as that step's exception and leaves the globals untouched; a chain failure is reported as its exception, installs the new index and keeps the old chain |
| Session.ProcessReportsFirstFailure | Backend/backend/main.py:74-101 | the pipeline fails with exception `e` exactly when `e` is raised by the first step that fails, each step running only after every earlier one succeeded |
| Session.PageContents | Backend/backend/main.py:134 | `[doc.page_content for doc in docs]` has one entry per source document, in order, each that document's page content |
| Session.ProcessReadiesExactlyOnSuccess | Backend/backend/main.py:88-101 | from a reachable state that is not ready, one pipeline run makes both handles set exactly when every step succeeds |
| Session.ProcessPreservesCoherence | Backend/backend/Mock.py:138-146 | the chain answers from the installed index after a run, unless the index is replaced and then the chain build fails while an older chain is installed |
| Session.ChainFailureBreaksCoherence | Backend/backend/main.py:88-101 | a full upload followed by one whose chain build fails leaves the old chain installed next to the new index |
| MainApi.Upload | Backend/backend/main.py:59-115 | a 200 "File processed successfully" exactly when the save and every step succeed, and then the new pair is installed; a failed save, or the first failing step, is mapped through the `except` clauses; the staged file never remains; the globals are untouched unless the index is built |
| MainApi.UploadError | Backend/backend/main.py:105-110 | the `except` clauses: 400 exactly for a `ValueError`, with the bare message; for anything else, 500 with "Internal Server Error: " + the message |
| MainApi.FirstFailureIsReported | Backend/backend/main.py:63-110 | after a successful save, whichever step fails first, its exception is the one mapped to the response |
| MainApi.EarlyFailureMapping | Backend/backend/main.py:63-110 | a failed save, load or split, or a failed FAISS build, leaves the globals untouched and gives 400 with the bare message exactly for a `ValueError`, else 500 with "Internal Server Error: " + message |
| MainApi.UnsupportedFormatIs400 | Backend/backend/main.py:105-107 | an unsupported extension gives 400 "Unsupported file format: <ext>" and leaves the globals untouched |
| MainApi.ChainFailureHalfReplaces | Backend/backend/main.py:88-101 | if the index builds and the chain build fails, `vector_store` holds the new index and `qa_chain` keeps its previous value |
| MainApi.Ask | Backend/backend/main.py:117-142 | not ready gives 400; once ready, a blank question gives 422; otherwise the installed chain is called with an empty history, and its answer and the page contents of its sources, in order, are returned, or its error as 500 |
| MainApi.NotReadyBeforeEmptyQuestion | Backend/backend/main.py:120-124 | before any upload every question gets 400, blank ones included, because the readiness check comes first |
| MainApi.BlankQuestionIs422 | Backend/backend/main.py:123-124 | once ready, every question made only of Python whitespace characters, the empty one included, gets 422 whatever the chain would do |
| MainApi.AskAfterUploadUsesNewChain | Backend/backend/main.py:97-131 | after a fully successful upload, an ask uses the chain that upload built, which is bound to that upload's index |
| MainApi.RunReadiness | Backend/backend/main.py:56-121 | over any request sequence the service is ready exactly when it was ready already or some upload fully succeeded |
| MainApi.AskBeforeAnyFullUploadIs400 | Backend/backend/main.py:56-121 | from start-up, every ask gets 400 until some upload fully succeeds, even after partial uploads |
| Auth.AccessTokenClaims | Backend/backend/Mock.py:59-62 | the signed claims are the caller's claims plus `exp` = now + 30 minutes, which replaces any `exp` the caller gave |
| Auth.Login | Backend/backend/Mock.py:107-113 | login succeeds exactly for a user name in `users_db`, with a bearer token whose claims are `sub` = that name and `exp` = now + 30; otherwise 400 "Incorrect username or password" |
| Auth.LoginIgnoresPassword | Backend/backend/Mock.py:108-112 | the login result does not depend on the password |
| Auth.TryBlock | Backend/backend/Mock.py:69-76 | the `try` block returns a user exactly when the token decodes to a payload whose `sub` is a string naming a user; decode errors escape; its own `HTTPException`s are 401s |
| Auth.CurrentUser | Backend/backend/Mock.py:66-78 | the intended dependency: a user exactly when a token is present and the `try` block returns one; no token gives 401 "Not authenticated"; a decode error gives 401 "Invalid authentication credentials" |
| Auth.CurrentUserRefusesWith401 | Backend/backend/Mock.py:72-78 | every refusal of a token with a hashable subject is a 401: "Invalid authentication credentials" for a missing subject, "User not found" for an unknown string, number or boolean subject |
| Auth.LoginThenAuthenticate | Backend/backend/Mock.py:59-76 | a token issued by login, accepted unchanged by the decoder, authenticates as that user's record |
| Auth.CurrentUserAsWritten | Backend/backend/Mock.py:66-78 | the code as written against PyJWT: no token gives 401 "Not authenticated" from the bearer scheme; it accepts exactly the tokens the intended version accepts; any refusal of a present token is an unhandled 500 |
| Auth.AsWrittenRejectsRefusedTokenWith500 | Backend/backend/Mock.py:77-78 | a token the decoder refuses gets 500 from the code as written and 401 from the intended version |
| MockApi.Upload | Backend/backend/Mock.py:115-154 | a refused dependency is returned unchanged with the globals untouched; 200 exactly when authenticated and every step succeeds; a failed save escapes unhandled; a failure inside the `try` is 500 with the bare message of the first failing step; once authenticated and saved, the globals are exactly what the shared pipeline leaves, including the new index beside the old chain after a chain failure; never 400 once authenticated; the staged file remains exactly when the copy fails after `open` |
| MockApi.ChainFailureHalfReplaces | Backend/backend/Mock.py:138-151 | if the index builds and the chain build fails, `vector_store` holds the new index, `qa_chain` keeps its previous value, and the client gets 500 with the chain's bare message |
| MockApi.FirstFailureIs500 | Backend/backend/Mock.py:124-154 | after a successful save, whichever step fails first, the client gets 500 with that exception's bare message and the staged file is removed |
| MockApi.UnsupportedFormatStatusDiffers | Backend/backend/Mock.py:150-151 | the same authorised upload with an unsupported extension gets 400 from main.py and 500 from Mock.py, with the same message, and neither changes the globals |
| MockApi.Ask | Backend/backend/Mock.py:156-179 | a refused dependency is returned unchanged; not ready gives 400; otherwise the chain is called with the question and the caller's history unchanged; success gives the answer and the ordered page contents, failure gives 500 with the bare message |
| MockApi.EmptyQuestionReachesChain | Backend/backend/Mock.py:161-169 | once ready and authenticated, even an empty question is passed to the chain together with the caller's history |
| MockApi.RefusedTokenReachesNoHandler | Backend/backend/Mock.py:66-78 | a token the library refuses gets an unhandled 500 from both handlers with the dependency as written, and 401 "Invalid authentication credentials" with the corrected one; the session is untouched |
| MockApi.TokenlessUploadKeepsSession | Backend/backend/Mock.py:115-117 | an upload without a token gets 401 "Not authenticated" from either version of the dependency and leaves the globals alone, so a later authorised ask still reaches the earlier document's chain |
| MockApi.UnauthorisedRequestsLeaveSession | Backend/backend/Mock.py:115-117 | for any version of the dependency, over any request sequence with no authorised upload, the globals are exactly as they were |
| MockApi.SessionIndependentOfDependencyDefect | Backend/backend/Mock.py:77-78 | over any request sequence, the dependency as written and the corrected one leave the same globals: the defect changes only what clients are told |

## Left out

- FastAPI routing, CORS middleware, and parsing of multipart, form and JSON
  bodies: these are framework plumbing. Requests arrive already parsed, so
  the framework's own 422 validation errors are not modelled.
- File system effects are reduced to one flag, "staged file left behind". This
  covers creating `uploads` at import, `open`, `shutil.copyfileobj` and
  `os.remove`. Removal in a `finally` is assumed to succeed. That assumption
  fails in one real case, which is not modelled. In main.py, a file name of `""`,
  `.` or `..` stages to an existing directory: `open` fails, `os.path.exists`
  is true, and `os.remove` (main.py:112-114) raises from the `finally`. The
  client then gets a plain unhandled 500, whereas `MainApi.Upload` answers
  `OpenFailed` with 500 "Internal Server Error: " + message.
- LangChain loaders, `RecursiveCharacterTextSplitter`, `OpenAIEmbeddings`, FAISS,
  `ChatOpenAI` and `ConversationalRetrievalChain` are foreign libraries. Each is
  an outcome parameter or a call oracle. The chunk size of 1000 and overlap of
  200 belong to the library's splitter and are not modelled. Loader
  construction is folded into the load step. `ChatOpenAI` construction is
  folded into the chain step.
- JWT signing, signature checking and expiry checking (`jwt.encode`,
  `jwt.decode`, `SECRET_KEY`, `ALGORITHM`) are library cryptography. A token
  keeps its claims, and decoding is an oracle that returns a payload or fails.
- `datetime.utcnow()` is replaced by a `now` parameter in whole minutes.
- The module-level API-key guard (main.py:47-49, Mock.py:98-100) is
  configuration. As written it raises at import because the key is empty.
- Concurrency between async handlers is out of scope: each request is one
  atomic transition.
- `print` logging is out of scope.
- Text.Lower: lower-cases ASCII letters only, whereas Python's `str.lower`
  covers all of Unicode. The loader chosen is the same for every input,
  because no non-ASCII character lower-cases to a letter of "pdf", "docx",
  "doc", "txt" or "csv". Only the text of the unsupported-format message can
  differ.
- Loader.StagingPath: POSIX `os.path.join` only. Windows drive and backslash
  rules are not modelled.
- The "not ready" check reads `not vector_store or not qa_chain` as "either
  handle is `None`". This assumes a built index and chain are always truthy.
- Claims in a decoded payload are told apart only as far as
  `get_current_user` can tell them apart: null, string, number, boolean, or an
  unhashable list/object. Mock.py's `chat_history: List[dict]` is modelled as
  question/answer pairs.

## Findings

| source | as written | input that shows it | evidently intended | confidence | as-written member | corrected member |
|---|---|---|---|---|---|---|
| Backend/backend/Mock.py:77 | `except jwt.JWTError:`. PyJWT, whose `jwt.encode`/`jwt.decode(..., algorithms=...)` API the file uses, defines no `JWTError`. Evaluating the clause therefore raises `AttributeError` whenever the `try` block raises, and that includes the block's own 401 `HTTPException`s | any token the library refuses (for example, an expired one), or a valid token whose payload has no `sub` | refused tokens get 401 with the stated detail | medium; not executed; holds if the installed `jwt` module is PyJWT | Auth.CurrentUserAsWritten, Auth.AsWrittenRejectsRefusedTokenWith500 | Auth.CurrentUser, Auth.CurrentUserRefusesWith401 |
