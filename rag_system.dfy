/** rag_system.py: the document store and the guarded build steps of the RAG pipeline.
    The FAISS index, the RetrievalQA chain and the language model are not modelled
    beyond what the class records about them. */
module RagSystem {
  import opened Outcomes
  import opened Documents
  import opened PyText

  /** A FAISS index, recorded as the documents it was built from. */
  datatype VectorStore = VectorStore(indexed: seq<Document>)

  /** A RetrievalQA chain over a store's retriever, returning the top `k` documents. */
  datatype QaChain = QaChain(k: int, store: VectorStore)

  /** What qa_chain.invoke({"query": q}) does: raise, or return the answer text and the source documents. */
  datatype InvokeResult = InvokeRaised | Invoked(result: string, sourceDocuments: seq<Document>)

  /** The dict ask_question returns. */
  datatype Answer = Answer(question: string, answer: string, sources: seq<Metadata>)

  class FinanceRAG {
    var documents: seq<Document>
    var vectorStore: Option<VectorStore>
    var qaChain: Option<QaChain>

    /** A store was built from a non-empty prefix of the documents loaded so far. */
    ghost predicate IsSnapshot(store: VectorStore)
      reads this
    {
      store.indexed != [] && store.indexed <= documents
    }

    /** The pipeline order: a chain exists only over a built store, and every built store
        indexes a non-empty snapshot of the document list. */
    ghost predicate Valid()
      reads this
    {
      (vectorStore.Some? ==> IsSnapshot(vectorStore.value)) &&
      (qaChain.Some? ==> vectorStore.Some? && IsSnapshot(qaChain.value.store))
    }

    constructor ()
      ensures Valid()
      ensures documents == [] && vectorStore == None && qaChain == None
      ensures DocumentCount() == 0
    {
      documents, vectorStore, qaChain := [], None, None;
    }

    /** load_documents: extends the list; an empty batch changes nothing. */
    method LoadDocuments(docs: seq<Document>)
      requires Valid()
      modifies this
      ensures Valid()
      ensures documents == old(documents) + docs
      ensures DocumentCount() == old(DocumentCount()) + |docs|
      ensures vectorStore == old(vectorStore) && qaChain == old(qaChain)
    {
      if docs == [] {
        return;
      }
      documents := documents + docs;
    }

    /** build_vector_store. `embeddingOk` says whether FAISS.from_documents returns normally. */
    method BuildVectorStore(embeddingOk: bool) returns (r: Outcome)
      requires Valid()
      modifies this
      ensures Valid()
      ensures documents == old(documents) && qaChain == old(qaChain)
      ensures old(documents) == [] ==> r == Fail(NoDocuments) && vectorStore == old(vectorStore)
      ensures old(documents) != [] && !embeddingOk ==> r == Fail(UpstreamFailure) && vectorStore == old(vectorStore)
      ensures old(documents) != [] && embeddingOk ==> r == Pass && vectorStore == Some(VectorStore(documents))
    {
      if documents == [] {
        return Fail(NoDocuments);
      }
      if !embeddingOk {
        return Fail(UpstreamFailure);
      }
      vectorStore := Some(VectorStore(documents));
      r := Pass;
    }

    /** build_qa_chain. `chainOk` says whether RetrievalQA.from_chain_type returns normally. */
    method BuildQaChain(k: int, chainOk: bool) returns (r: Outcome)
      requires Valid()
      modifies this
      ensures Valid()
      ensures documents == old(documents) && vectorStore == old(vectorStore)
      ensures old(vectorStore).None? ==> r == Fail(NoVectorStore) && qaChain == old(qaChain)
      ensures old(vectorStore).Some? && !chainOk ==> r == Fail(UpstreamFailure) && qaChain == old(qaChain)
      ensures old(vectorStore).Some? && chainOk ==> r == Pass && qaChain == Some(QaChain(k, vectorStore.value))
    {
      if vectorStore.None? {
        return Fail(NoVectorStore);
      }
      if !chainOk {
        return Fail(UpstreamFailure);
      }
      qaChain := Some(QaChain(k, vectorStore.value));
      r := Pass;
    }

    /** ask_question. `invoke` is what the chain answers for a question. The chain is checked
        before the question; a successful answer implies the whole pipeline was built. */
    method AskQuestion(question: string, invoke: (QaChain, string) -> InvokeResult) returns (r: Result<Answer>)
      requires Valid()
      ensures qaChain.None? ==> r == Err(NoQaChain)
      ensures qaChain.Some? && IsBlank(question) ==> r == Err(EmptyQuestion)
      ensures qaChain.Some? && !IsBlank(question) && invoke(qaChain.value, question).InvokeRaised? ==>
                r == Err(UpstreamFailure)
      ensures qaChain.Some? && !IsBlank(question) && invoke(qaChain.value, question).Invoked? ==>
                var out := invoke(qaChain.value, question);
                r.Ok? && r.value.question == question && r.value.answer == out.result &&
                |r.value.sources| == |out.sourceDocuments| &&
                forall i :: 0 <= i < |out.sourceDocuments| ==> r.value.sources[i] == out.sourceDocuments[i].metadata
      ensures r.Ok? ==> documents != [] && vectorStore.Some? && qaChain.Some?
    {
      if qaChain.None? {
        return Err(NoQaChain);
      }
      if IsBlank(question) {
        return Err(EmptyQuestion);
      }
      var out := invoke(qaChain.value, question);
      match out
      case InvokeRaised =>
        r := Err(UpstreamFailure);
      case Invoked(result, sourceDocuments) =>
        r := Ok(Answer(question, result, Metadatas(sourceDocuments)));
    }

    /** get_document_count */
    function DocumentCount(): nat
      reads this
    {
      |documents|
    }

    /** clear_documents: back to the state of a fresh instance. */
    method ClearDocuments()
      requires Valid()
      modifies this
      ensures Valid()
      ensures documents == [] && vectorStore == None && qaChain == None
      ensures DocumentCount() == 0
    {
      documents := [];
      vectorStore := None;
      qaChain := None;
    }
  }
}
