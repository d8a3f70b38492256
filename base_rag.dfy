/** The in-memory retrieval example: retrieved sentences answer a query through the "lite" model. */
module BaseRag {
  import opened Wrappers
  import opened PyJson
  import opened Bedrock
  import opened Rag

  const ModelId := "us.amazon.nova-lite-v1:0"
  const SystemPrompt := "You are a helpful AI"

  /** `rag_with_bedrock` of this example: the shared construction, sent to the lite model with this system prompt. */
  method RagWithBedrock(query: string, docs: seq<Document>, converse: Converse) returns (r: Result<Json, PyError>)
    ensures r == GenerateConversation(ModelId, SystemPrompts(SystemPrompt), UserMessages(Prompt(Join(docs), query)), converse)
  {
    r := Rag.RagWithBedrock(ModelId, SystemPrompt, query, docs, converse);
  }

  /** The request is a single turn to the lite model whose user text is the prompt, from which context and query read back. */
  lemma RequestShape(query: string, docs: seq<Document>)
    ensures var prompt := Prompt(Join(docs), query);
            && ReadSingleTurn(ConverseCall(ModelId, SystemPrompts(SystemPrompt), UserMessages(prompt)))
               == Some(SingleTurn(ModelId, SystemPrompt, prompt))
            && SplitPrompt(prompt, |query|) == Some((Join(docs), query))
  {
    Rag.RequestShape(ModelId, SystemPrompt, query, docs);
  }
}
