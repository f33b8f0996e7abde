/** The service without authentication (main.py): its upload and ask handlers
    as transitions over the session state. */
module MainApi {
  import opened Outcomes
  import opened Http
  import opened Text
  import opened Loader
  import opened Session

  /** The detail of the blank-question rejection. */
  const EmptyQuestionDetail: string := "Question cannot be empty"

  /** The upload handler's two `except` clauses: a `ValueError` becomes 400 with
      its message, anything else 500 with the message behind a fixed prefix. */
  function UploadError(e: Exc): (r: Error)
    ensures r.HttpException?
    ensures r.status == 400 <==> e.cls == ValueError
    ensures r.status == 500 <==> e.cls == OtherError
    ensures |e.message| <= |r.detail| && r.detail[|r.detail| - |e.message|..] == e.message
    ensures r.status == 400 ==> r.detail == e.message
    ensures r.status == 500 ==> r.detail == "Internal Server Error: " + e.message
  {
    match e.cls
    case ValueError => HttpException(400, e.message)
    case OtherError => HttpException(500, "Internal Server Error: " + e.message)
  }

  /** `upload_file`: save the file, run the pipeline, map failures through the
      `except` clauses; the `finally` clause removes the staged file if it exists. */
  function Upload(s: State, filename: string, st: Stages): (r: UploadResult)
    ensures !r.tempFileLeft
    ensures r.response.Ok? <==> st.save.Saved? && AllStagesPass(StagingPath(filename), st)
    ensures r.response.Ok? ==> r.response.body == UploadSuccessMessage && r.state == Installed(st)
    ensures r.response.Err? ==> r.response.error.HttpException? && Status(r.response) in {400, 500}
    ensures !st.save.Saved? ==> r.response == Err(UploadError(st.save.error))
    ensures st.save.Saved? && !AllStagesPass(StagingPath(filename), st) ==>
              r.response == Err(UploadError(Process(s, StagingPath(filename), st).outcome.error))
    ensures !(st.save.Saved? && IndexInstalled(StagingPath(filename), st)) ==> r.state == s
  {
    var path := StagingPath(filename);
    match st.save
    case OpenFailed(e) => UploadResult(Err(UploadError(e)), s, false)
    case CopyFailed(e) => UploadResult(Err(UploadError(e)), s, false)
    case Saved =>
      var p := Process(s, path, st);
      var response := if p.outcome.Pass? then Ok(UploadSuccessMessage) else Err(UploadError(p.outcome.error));
      UploadResult(response, p.state, false)
  }

  /** `ask_question`: the readiness check, then the blank-question check, then
      one chain call with an empty history. */
  function Ask(s: State, question: string, call: ChainCall): (r: Response<AnswerBody>)
    ensures !Ready(s) ==> r == Err(HttpException(400, NotReadyDetail))
    ensures Ready(s) && IsBlank(question) ==> r == Err(HttpException(422, EmptyQuestionDetail))
    ensures Ready(s) && !IsBlank(question) ==>
              match call(s.qaChain.value, ChainInput(question, []))
              case Success(out) => r == Ok(AnswerOf(out))
              case Failure(e) => r == Err(HttpException(500, "Internal Server Error: " + e.message))
  {
    if s.vectorStore.None? || s.qaChain.None? then Err(HttpException(400, NotReadyDetail))
    else if Strip(question) == [] then Err(HttpException(422, EmptyQuestionDetail))
    else
      match call(s.qaChain.value, ChainInput(question, []))
      case Success(out) => Ok(AnswerOf(out))
      case Failure(e) => Err(HttpException(500, "Internal Server Error: " + e.message))
  }

  /** An unsupported extension is a `ValueError`, so the client gets 400 with
      the message naming the extension, and the session is untouched. */
  lemma UnsupportedFormatIs400(s: State, filename: string, st: Stages)
    requires st.save.Saved?
    requires Extension(StagingPath(filename)) !in SupportedExtensions
    ensures Upload(s, filename, st).response ==
              Err(HttpException(400, "Unsupported file format: " + Extension(StagingPath(filename))))
    ensures Upload(s, filename, st).state == s
  {
  }

  /** A step that raises before the index is installed leaves the session untouched;
      the client gets 400 with the bare message exactly when the exception is a
      `ValueError`, and otherwise 500 with the message behind the prefix. */
  lemma EarlyFailureMapping(s: State, filename: string, st: Stages, e: Exc)
    requires st.save == OpenFailed(e) || st.save == CopyFailed(e)
      || (st.save.Saved? && LoaderForFile(StagingPath(filename)).Success? && st.load == Fail(e))
      || (st.save.Saved? && LoaderForFile(StagingPath(filename)).Success? && st.load.Pass? && st.split == Fail(e))
      || (st.save.Saved? && ReachesIndexBuild(StagingPath(filename), st) && st.index == Failure(e))
    ensures Upload(s, filename, st).state == s
    ensures Status(Upload(s, filename, st).response) == 400 <==> e.cls == ValueError
    ensures e.cls == ValueError ==> Upload(s, filename, st).response == Err(HttpException(400, e.message))
    ensures e.cls == OtherError ==>
              Upload(s, filename, st).response == Err(HttpException(500, "Internal Server Error: " + e.message))
  {
  }

  /** A failure after the index is installed leaves the new index beside the
      previous chain, and the client sees the chain's error. */
  lemma ChainFailureHalfReplaces(s: State, filename: string, st: Stages)
    requires st.save.Saved? && IndexInstalled(StagingPath(filename), st) && st.chain.Failure?
    ensures Upload(s, filename, st).state == State(Some(st.index.value), s.qaChain)
    ensures Upload(s, filename, st).response == Err(UploadError(st.chain.error))
  {
  }

  /** Whichever step fails first, its exception is what the `except` clauses map. */
  lemma FirstFailureIsReported(s: State, filename: string, st: Stages, e: Exc)
    requires st.save.Saved? && FailsWith(StagingPath(filename), st, e)
    ensures Upload(s, filename, st).response == Err(UploadError(e))
  {
    ProcessReportsFirstFailure(s, StagingPath(filename), st, e);
  }

  /** The readiness check comes first: before any upload every question,
      including a blank one, gets 400 and never reaches a chain. */
  lemma NotReadyBeforeEmptyQuestion(question: string, call: ChainCall)
    ensures Ask(Init, question, call) == Err(HttpException(400, NotReadyDetail))
  {
  }

  /** Once ready, empty and whitespace-only questions are refused with 422
      whatever the chain would do. */
  lemma BlankQuestionIs422(s: State, question: string, call: ChainCall)
    requires Ready(s) && IsBlank(question)
    ensures Ask(s, question, call) == Err(HttpException(422, EmptyQuestionDetail))
  {
  }

  /** After a fully successful upload, the next ask consults the chain built by
      that upload, which is bound to that upload's index: nothing of an earlier
      document is used. */
  lemma AskAfterUploadUsesNewChain(s: State, filename: string, st: Stages, question: string, call: ChainCall)
    requires st.save.Saved? && AllStagesPass(StagingPath(filename), st)
    requires !IsBlank(question)
    ensures var s' := Upload(s, filename, st).state;
      && s'.qaChain == Some(Chain(st.chain.value, st.index.value))
      && Ask(s', question, call) ==
           match call(Chain(st.chain.value, st.index.value), ChainInput(question, []))
           case Success(out) => Ok(AnswerOf(out))
           case Failure(e) => Err(HttpException(500, "Internal Server Error: " + e.message))
  {
  }

  /** A request to this service. */
  datatype Request =
    | UploadRequest(filename: string, stages: Stages)
    | AskRequest(question: string, call: ChainCall)

  /** The globals after one request (an ask never changes them). */
  function Step(s: State, req: Request): State
  {
    match req
    case UploadRequest(filename, stages) => Upload(s, filename, stages).state
    case AskRequest(_, _) => s
  }

  /** The globals after serving `reqs` one at a time, in order. */
  function Run(s: State, reqs: seq<Request>): State
    decreases |reqs|
  {
    if reqs == [] then s else Run(Step(s, reqs[0]), reqs[1..])
  }

  /** This request is an upload whose every step succeeds. */
  predicate FullUpload(req: Request)
  {
    req.UploadRequest? && req.stages.save.Saved? && AllStagesPass(StagingPath(req.filename), req.stages)
  }

  /** One request keeps a reachable state reachable, and makes it ready exactly
      when it was ready already or the request is a full upload. */
  lemma StepReadiness(s: State, req: Request)
    requires WellFormed(s)
    ensures WellFormed(Step(s, req))
    ensures Ready(Step(s, req)) <==> Ready(s) || FullUpload(req)
  {
    if req.UploadRequest? && req.stages.save.Saved? {
      var path := StagingPath(req.filename);
      ProcessPreservesWellFormed(s, path, req.stages);
      if Ready(s) {
        ProcessKeepsReady(s, path, req.stages);
      } else {
        ProcessReadiesExactlyOnSuccess(s, path, req.stages);
      }
    }
  }

  /** Over any sequence of requests from a reachable state, the service ends up
      ready exactly when it was ready already or some upload fully succeeded;
      partial uploads never make it ready. */
  lemma {:induction false} RunReadiness(s: State, reqs: seq<Request>)
    requires WellFormed(s)
    ensures Ready(Run(s, reqs)) <==> Ready(s) || exists i :: 0 <= i < |reqs| && FullUpload(reqs[i])
    decreases |reqs|
  {
    if reqs != [] {
      StepReadiness(s, reqs[0]);
      RunReadiness(Step(s, reqs[0]), reqs[1..]);
      if exists i :: 0 <= i < |reqs| && FullUpload(reqs[i]) {
        var i :| 0 <= i < |reqs| && FullUpload(reqs[i]);
        if i > 0 {
          assert FullUpload(reqs[1..][i - 1]);
        }
      }
      if exists j :: 0 <= j < |reqs[1..]| && FullUpload(reqs[1..][j]) {
        var j :| 0 <= j < |reqs[1..]| && FullUpload(reqs[1..][j]);
        assert FullUpload(reqs[j + 1]);
      }
    }
  }

  /** Until some upload has fully succeeded, every ask gets 400. */
  lemma AskBeforeAnyFullUploadIs400(reqs: seq<Request>, question: string, call: ChainCall)
    requires forall i :: 0 <= i < |reqs| ==> !FullUpload(reqs[i])
    ensures Ask(Run(Init, reqs), question, call) == Err(HttpException(400, NotReadyDetail))
  {
    RunReadiness(Init, reqs);
  }
}
