/** Failure-carrying values used in place of the exceptions the Python code raises. */
module Outcomes {

  datatype Option<T> = None | Some(value: T)

  /** The exceptions raised across the pipeline, one constructor per cause. */
  datatype Error =
    | MissingApiKey      // config.validate_config: OPENAI_API_KEY is not set
    | NoDataFetched      // _load_financial_data: stock and crypto fetches both came back empty
    | NoRagSystem        // attribute access on a rag_system that is still None
    | NoDocuments        // build_vector_store before any document was loaded
    | NoVectorStore      // build_qa_chain before build_vector_store
    | NoQaChain          // ask_question before build_qa_chain
    | EmptyQuestion      // a question that is empty after strip()
    | NotReady           // the service's ask_question before a successful initialize
    | UpstreamFailure    // an exception raised by an embedding, FAISS, LangChain or OpenAI call

  /** Result of an operation that returns nothing (Python: returns None or raises). */
  datatype Outcome = Pass | Fail(error: Error)

  /** Result of an operation that returns a value or raises. */
  datatype Result<T> = Ok(value: T) | Err(error: Error)
}
