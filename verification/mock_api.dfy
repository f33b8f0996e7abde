/** The service with authentication and chat history (Mock.py): its upload and
    ask handlers as transitions over the session state. Each handler receives
    the result of its `get_current_user` dependency, which FastAPI resolves
    before the handler body runs; the lemmas below plug in both the dependency
    as written (`CurrentUserAsWritten`) and as intended (`CurrentUser`). */
module MockApi {
  import opened Outcomes
  import opened Http
  import opened Loader
  import opened Session
  import opened Auth
  import MainApi

  /** `upload_file`: a refused dependency is returned as it is; the file is
      saved OUTSIDE the `try`, so a failed save escapes unhandled and skips the
      `finally`; inside the `try` every exception, the unsupported-format
      `ValueError` included, becomes 500 with its bare message. */
  function Upload(s: State, user: Response<UserRecord>, filename: string, st: Stages): (r: UploadResult)
    ensures user.Err? ==> r == UploadResult(Err(user.error), s, false)
    ensures r.response.Ok? <==> user.Ok? && st.save.Saved? && AllStagesPass(StagingPath(filename), st)
    ensures r.response.Ok? ==> r.response.body == UploadSuccessMessage && r.state == Installed(st)
    ensures user.Ok? && !st.save.Saved? ==> r.response == Err(Unhandled)
    ensures user.Ok? && st.save.Saved? && !AllStagesPass(StagingPath(filename), st) ==>
              r.response == Err(HttpException(500, Process(s, StagingPath(filename), st).outcome.error.message))
    ensures r.tempFileLeft <==> user.Ok? && st.save.CopyFailed?
    ensures user.Ok? ==> Status(r.response) != 400
    ensures !(st.save.Saved? && IndexInstalled(StagingPath(filename), st)) ==> r.state == s
    ensures user.Ok? && st.save.Saved? ==> r.state == Process(s, StagingPath(filename), st).state
  {
    match user
    case Err(e) => UploadResult(Err(e), s, false)
    case Ok(_) =>
      match st.save
      case OpenFailed(_) => UploadResult(Err(Unhandled), s, false)
      case CopyFailed(_) => UploadResult(Err(Unhandled), s, true)
      case Saved =>
        var p := Process(s, StagingPath(filename), st);
        var response := if p.outcome.Pass? then Ok(UploadSuccessMessage) else Err(HttpException(500, p.outcome.error.message));
        UploadResult(response, p.state, false)
  }

  /** The JSON body of an ask request. */
  datatype QuestionRequest = QuestionRequest(question: string, chatHistory: seq<Turn>)

  /** `ask_question`: a refused dependency is returned as it is; then the
      readiness check, then the chain with the question and the caller's
      history exactly as sent. There is no check for a blank question. */
  function Ask(s: State, user: Response<UserRecord>, req: QuestionRequest, call: ChainCall): (r: Response<AnswerBody>)
    ensures user.Err? ==> r == Err(user.error)
    ensures user.Ok? && !Ready(s) ==> r == Err(HttpException(400, NotReadyDetail))
    ensures user.Ok? && Ready(s) ==>
              match call(s.qaChain.value, ChainInput(req.question, req.chatHistory))
              case Success(out) => r == Ok(AnswerOf(out))
              case Failure(e) => r == Err(HttpException(500, e.message))
  {
    match user
    case Err(e) => Err(e)
    case Ok(_) =>
      if s.vectorStore.None? || s.qaChain.None? then Err(HttpException(400, NotReadyDetail))
      else
        match call(s.qaChain.value, ChainInput(req.question, req.chatHistory))
        case Success(out) => Ok(AnswerOf(out))
        case Failure(e) => Err(HttpException(500, e.message))
  }

  /** Whichever step inside the `try` fails first, the client gets 500 with
      that exception's bare message, and the staged file is removed. */
  lemma FirstFailureIs500(s: State, user: Response<UserRecord>, filename: string, st: Stages, e: Exc)
    requires user.Ok? && st.save.Saved? && FailsWith(StagingPath(filename), st, e)
    ensures Upload(s, user, filename, st).response == Err(HttpException(500, e.message))
    ensures !Upload(s, user, filename, st).tempFileLeft
  {
    ProcessReportsFirstFailure(s, StagingPath(filename), st, e);
  }

  /** The same non-atomic replacement as main.py: if the index builds and the
      chain build fails, the new index sits beside the previous chain, and the
      client gets 500 with the chain's bare message. */
  lemma ChainFailureHalfReplaces(s: State, user: Response<UserRecord>, filename: string, st: Stages)
    requires user.Ok? && st.save.Saved? && IndexInstalled(StagingPath(filename), st) && st.chain.Failure?
    ensures Upload(s, user, filename, st).state == State(Some(st.index.value), s.qaChain)
    ensures Upload(s, user, filename, st).response == Err(HttpException(500, st.chain.error.message))
  {
  }

  /** The two services disagree on a bad extension: the same authorised upload
      is refused with 400 by main.py and with 500 by Mock.py, with the same
      message, and neither touches the session. */
  lemma UnsupportedFormatStatusDiffers(s: State, user: Response<UserRecord>, filename: string, st: Stages)
    requires user.Ok? && st.save.Saved?
    requires Extension(StagingPath(filename)) !in SupportedExtensions
    ensures var msg := "Unsupported file format: " + Extension(StagingPath(filename));
      && MainApi.Upload(s, filename, st).response == Err(HttpException(400, msg))
      && Upload(s, user, filename, st).response == Err(HttpException(500, msg))
      && MainApi.Upload(s, filename, st).state == s
      && Upload(s, user, filename, st).state == s
  {
    MainApi.UnsupportedFormatIs400(s, filename, st);
  }

  /** Without the blank-question check, a ready service passes even an empty
      question to the chain, along with the caller's history. */
  lemma EmptyQuestionReachesChain(s: State, user: Response<UserRecord>, history: seq<Turn>, call: ChainCall)
    requires user.Ok? && Ready(s)
    requires call(s.qaChain.value, ChainInput("", history)).Success?
    ensures Ask(s, user, QuestionRequest("", history), call) ==
              Ok(AnswerOf(call(s.qaChain.value, ChainInput("", history)).value))
  {
  }

  /** A token the library refuses (an expired one, say): with the dependency as
      written both handlers answer with an unhandled 500 and the upload leaves
      the session alone; with the dependency as intended they answer 401. */
  lemma RefusedTokenReachesNoHandler(s: State, t: Token, decode: Decoder, filename: string, st: Stages,
                                     req: QuestionRequest, call: ChainCall)
    requires decode(t) == DecodeFailed
    ensures Upload(s, CurrentUserAsWritten(Some(t), decode), filename, st) == UploadResult(Err(Unhandled), s, false)
    ensures Ask(s, CurrentUserAsWritten(Some(t), decode), req, call) == Err(Unhandled)
    ensures Upload(s, CurrentUser(Some(t), decode), filename, st).response ==
              Err(HttpException(401, InvalidCredentialsDetail))
    ensures Ask(s, CurrentUser(Some(t), decode), req, call) == Err(HttpException(401, InvalidCredentialsDetail))
  {
  }

  /** An upload without a bearer token is refused with 401 by either version of
      the dependency and leaves the session as it was, so an authorised ask
      afterwards still reaches the chain of the earlier document. */
  lemma TokenlessUploadKeepsSession(s: State, decode: Decoder, filename: string, st: Stages,
                                    t: Token, req: QuestionRequest, call: ChainCall)
    requires Ready(s) && CurrentUserAsWritten(Some(t), decode).Ok?
    ensures Upload(s, CurrentUserAsWritten(None, decode), filename, st) ==
              UploadResult(Err(HttpException(401, NotAuthenticatedDetail)), s, false)
    ensures Upload(s, CurrentUser(None, decode), filename, st) ==
              UploadResult(Err(HttpException(401, NotAuthenticatedDetail)), s, false)
    ensures Ask(Upload(s, CurrentUserAsWritten(None, decode), filename, st).state,
                CurrentUserAsWritten(Some(t), decode), req, call) ==
              match call(s.qaChain.value, ChainInput(req.question, req.chatHistory))
              case Success(out) => Ok(AnswerOf(out))
              case Failure(e) => Err(HttpException(500, e.message))
  {
  }

  /** A request to this service, with the bearer token it carries. */
  datatype Request =
    | UploadRequest(header: Option<Token>, filename: string, stages: Stages)
    | AskRequest(header: Option<Token>, req: QuestionRequest, call: ChainCall)

  /** A version of the `get_current_user` dependency. */
  type Authenticator = Option<Token> -> Response<UserRecord>

  /** The globals after one request (an ask never changes them). */
  function Step(s: State, auth: Authenticator, r: Request): State
  {
    match r
    case UploadRequest(header, filename, stages) => Upload(s, auth(header), filename, stages).state
    case AskRequest(_, _, _) => s
  }

  /** The globals after serving `reqs` one at a time, in order. */
  function Run(s: State, auth: Authenticator, reqs: seq<Request>): State
    decreases |reqs|
  {
    if reqs == [] then s else Run(Step(s, auth, reqs[0]), auth, reqs[1..])
  }

  /** The request is an upload that passes authentication. */
  predicate AuthorisedUpload(auth: Authenticator, r: Request)
  {
    r.UploadRequest? && auth(r.header).Ok?
  }

  /** However many requests arrive, if none of them is an authorised upload the
      session is exactly as it was, whichever dependency decides. */
  lemma {:induction false} UnauthorisedRequestsLeaveSession(s: State, auth: Authenticator, reqs: seq<Request>)
    requires forall i :: 0 <= i < |reqs| ==> !AuthorisedUpload(auth, reqs[i])
    ensures Run(s, auth, reqs) == s
    decreases |reqs|
  {
    if reqs != [] {
      assert !AuthorisedUpload(auth, reqs[0]);
      assert forall i :: 0 <= i < |reqs[1..]| ==> !AuthorisedUpload(auth, reqs[1..][i]) by {
        forall i | 0 <= i < |reqs[1..]| ensures !AuthorisedUpload(auth, reqs[1..][i]) {
          assert reqs[1..][i] == reqs[i + 1];
        }
      }
      UnauthorisedRequestsLeaveSession(s, auth, reqs[1..]);
    }
  }

  /** The defect in the dependency changes what clients are told, never the
      session: over any request sequence, the dependency as written and as
      intended leave the same globals. */
  lemma {:induction false} SessionIndependentOfDependencyDefect(s: State, decode: Decoder, reqs: seq<Request>)
    ensures Run(s, h => CurrentUserAsWritten(h, decode), reqs) == Run(s, h => CurrentUser(h, decode), reqs)
    decreases |reqs|
  {
    if reqs != [] {
      var written: Authenticator := h => CurrentUserAsWritten(h, decode);
      var intended: Authenticator := h => CurrentUser(h, decode);
      assert Step(s, written, reqs[0]) == Step(s, intended, reqs[0]) by {
        if reqs[0].UploadRequest? {
          var h := reqs[0].header;
          assert written(h).Ok? <==> intended(h).Ok?;
        }
      }
      SessionIndependentOfDependencyDefect(Step(s, written, reqs[0]), decode, reqs[1..]);
    }
  }
}
