/** The process-wide session state both services keep (`vector_store`,
    `qa_chain`) and the document pipeline their upload handlers share:
    loader selection, load, split, FAISS index build, chain build.
    Every library step is an abstract outcome supplied by the caller. */
module Session {
  import opened Outcomes
  import opened Http
  import opened Loader

  /** A FAISS vector store built from one upload's chunks. */
  datatype Index = Index(id: nat)

  /** A conversational retrieval chain; `retriever` is the vector store it was
      bound to through `vector_store.as_retriever()`. */
  datatype Chain = Chain(id: nat, retriever: Index)

  /** The two module-level globals. */
  datatype State = State(vectorStore: Option<Index>, qaChain: Option<Chain>)

  /** Both globals start as `None`. */
  const Init: State := State(None, None)

  /** The "document uploaded" check of the ask handlers: both handles are set. */
  predicate Ready(s: State)
  {
    s.vectorStore.Some? && s.qaChain.Some?
  }

  /** A chain is only ever installed after an index: true of every reachable state. */
  predicate WellFormed(s: State)
  {
    s.qaChain.Some? ==> s.vectorStore.Some?
  }

  /** The chain, if any, answers from the vector store currently installed. */
  predicate Coherent(s: State)
  {
    s.qaChain.Some? ==> s.vectorStore == Some(s.qaChain.value.retriever)
  }

  /** Writing the upload to the staging directory: `open` can fail before any
      file exists, or `copyfileobj` can fail after `open` created the file. */
  datatype SaveOutcome = Saved | OpenFailed(error: Exc) | CopyFailed(error: Exc)

  /** The outcome of each library step of one upload, in the order they run.
      Loader selection is not among them: it is computed from the file name. */
  datatype Stages = Stages(
    save: SaveOutcome,        // open + shutil.copyfileobj
    load: Outcome,            // loader construction and loader.load()
    split: Outcome,           // text_splitter.split_documents
    index: Result<Index>,     // FAISS.from_documents
    chain: Result<nat>)       // ChatOpenAI + ConversationalRetrievalChain.from_llm

  /** Every step up to and including the text split succeeds for this path. */
  predicate ReachesIndexBuild(path: string, st: Stages)
  {
    LoaderForFile(path).Success? && st.load.Pass? && st.split.Pass?
  }

  /** The index build succeeds, so `vector_store` is reassigned. */
  predicate IndexInstalled(path: string, st: Stages)
  {
    ReachesIndexBuild(path, st) && st.index.Success?
  }

  /** Every step of the pipeline succeeds. */
  predicate AllStagesPass(path: string, st: Stages)
  {
    IndexInstalled(path, st) && st.chain.Success?
  }

  /** `e` is the exception of the first step that fails for this path: loader
      selection, load, split, index build or chain build, each reached only when
      every step before it has succeeded. */
  predicate FailsWith(path: string, st: Stages, e: Exc)
  {
    || LoaderForFile(path) == Failure(e)
    || (LoaderForFile(path).Success? && st.load == Fail(e))
    || (LoaderForFile(path).Success? && st.load.Pass? && st.split == Fail(e))
    || (ReachesIndexBuild(path, st) && st.index == Failure(e))
    || (IndexInstalled(path, st) && st.chain == Failure(e))
  }

  /** The state a fully successful pipeline leaves: the new index, and a new
      chain bound to it. */
  function Installed(st: Stages): State
    requires st.index.Success? && st.chain.Success?
  {
    State(Some(st.index.value), Some(Chain(st.chain.value, st.index.value)))
  }

  /** The pipeline's result: the outcome the handler's `try` block sees, and the
      globals afterwards. */
  datatype Processed = Processed(outcome: Outcome, state: State)

  /** The body of both upload handlers' `try` block after the file is saved.
      `vector_store` is assigned as soon as the index exists, before the chain
      is built, so a chain failure leaves the new index beside the old chain. */
  function Process(s: State, path: string, st: Stages): (p: Processed)
    ensures p.outcome.Pass? <==> AllStagesPass(path, st)
    ensures AllStagesPass(path, st) ==> p.state == Installed(st)
    ensures !IndexInstalled(path, st) ==> p.state == s
    ensures IndexInstalled(path, st) && st.chain.Failure? ==>
              p.state == State(Some(st.index.value), s.qaChain) && p.outcome == Fail(st.chain.error)
    ensures LoaderForFile(path).Failure? ==> p.outcome == Fail(LoaderForFile(path).error)
    ensures LoaderForFile(path).Success? && st.load.Fail? ==> p.outcome == st.load
    ensures LoaderForFile(path).Success? && st.load.Pass? && st.split.Fail? ==> p.outcome == st.split
    ensures ReachesIndexBuild(path, st) && st.index.Failure? ==> p.outcome == Fail(st.index.error)
  {
    match LoaderForFile(path)
    case Failure(e) => Processed(Fail(e), s)
    case Success(_) =>
      if st.load.Fail? then Processed(st.load, s)
      else if st.split.Fail? then Processed(st.split, s)
      else
        match st.index
        case Failure(e) => Processed(Fail(e), s)
        case Success(idx) =>
          var s1 := s.(vectorStore := Some(idx));
          match st.chain
          case Failure(e) => Processed(Fail(e), s1)
          case Success(cid) => Processed(Pass, s1.(qaChain := Some(Chain(cid, idx))))
  }

  /** What an upload handler returns, the globals afterwards, and whether the
      staged copy of the file is still on disk. */
  datatype UploadResult = UploadResult(response: Response<string>, state: State, tempFileLeft: bool)

  /** The message of a successful upload. */
  const UploadSuccessMessage: string := "File processed successfully"

  /** The detail of the ask handlers' "not ready" rejection. */
  const NotReadyDetail: string := "No document has been uploaded yet"

  /** One prior exchange of a conversation. */
  datatype Turn = Turn(question: string, answer: string)

  /** The input dictionary handed to `qa_chain(...)`. */
  datatype ChainInput = ChainInput(question: string, chatHistory: seq<Turn>)

  /** A LangChain document returned as a source. */
  datatype Document = Document(pageContent: string, metadata: map<string, string>)

  /** The fields of the chain's result the handlers read. */
  datatype ChainOutput = ChainOutput(answer: string, sourceDocuments: seq<Document>)

  /** Calling a chain: the library returns a result or raises. */
  type ChainCall = (Chain, ChainInput) -> Result<ChainOutput>

  /** The JSON body of a successful ask. */
  datatype AnswerBody = AnswerBody(answer: string, context: seq<string>)

  /** `[doc.page_content for doc in docs]`: same length, same order. */
  function PageContents(docs: seq<Document>): (r: seq<string>)
    ensures |r| == |docs|
    ensures forall i :: 0 <= i < |docs| ==> r[i] == docs[i].pageContent
  {
    if docs == [] then [] else [docs[0].pageContent] + PageContents(docs[1..])
  }

  /** The response body built from a chain result. */
  function AnswerOf(out: ChainOutput): AnswerBody
  {
    AnswerBody(out.answer, PageContents(out.sourceDocuments))
  }

  /** The pipeline reports exactly the exception of the first failing step. */
  lemma ProcessReportsFirstFailure(s: State, path: string, st: Stages, e: Exc)
    ensures Process(s, path, st).outcome == Fail(e) <==> FailsWith(path, st, e)
  {
  }

  /** A pipeline run never unsets a handle, so readiness is never lost. */
  lemma ProcessKeepsReady(s: State, path: string, st: Stages)
    requires Ready(s)
    ensures Ready(Process(s, path, st).state)
  {
  }

  /** A pipeline run keeps the chain-implies-index invariant. */
  lemma ProcessPreservesWellFormed(s: State, path: string, st: Stages)
    requires WellFormed(s)
    ensures WellFormed(Process(s, path, st).state)
  {
  }

  /** From a reachable state that is not ready, a pipeline run makes it ready
      exactly when every step succeeds. */
  lemma ProcessReadiesExactlyOnSuccess(s: State, path: string, st: Stages)
    requires WellFormed(s) && !Ready(s)
    ensures Ready(Process(s, path, st).state) <==> AllStagesPass(path, st)
  {
  }

  /** Coherence survives a pipeline run unless the index is replaced and the
      chain build then fails while an older chain is still installed. */
  lemma ProcessPreservesCoherence(s: State, path: string, st: Stages)
    requires Coherent(s)
    requires !(IndexInstalled(path, st) && st.chain.Failure? && s.qaChain.Some?)
    ensures Coherent(Process(s, path, st).state)
  {
  }

  /** The non-atomic replacement really breaks coherence: after a full upload,
      a second upload whose index builds but whose chain fails leaves the old
      chain installed next to the new index. */
  lemma ChainFailureBreaksCoherence(first: Stages, second: Stages, path: string)
    requires AllStagesPass(path, first) && IndexInstalled(path, second)
    requires second.chain.Failure?
    requires second.index.value != first.index.value
    ensures Coherent(Process(Init, path, first).state)
    ensures !Coherent(Process(Process(Init, path, first).state, path, second).state)
  {
  }
}
