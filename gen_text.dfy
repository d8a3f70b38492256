/**
 * The text-task adapter: an allow-list of model identifiers, three request
 * builders (summary, sentiment, question answering) that short-circuit on
 * empty input, and a lenient conversation helper whose extraction falls
 * back to defaults at every missing key.
 */
module GenText {
  import opened Wrappers
  import opened PyJson
  import opened Bedrock
  import Strings

  /** The model identifiers the adapter accepts. */
  const ModelIds: seq<string> := [
    "us.anthropic.claude-3-5-sonnet-20241022-v2:0",
    "us.anthropic.claude-3-5-haiku-20241022-v1:0",
    "meta.llama3-1-70b-instruct-v1:0",
    "meta.llama3-1-405b-instruct-v1:0",
    "meta.llama3-1-8b-instruct-v1:0",
    "mistral.mistral-large-2402-v1:0",
    "us.amazon.nova-pro-v1:0",
    "us.amazon.nova-lite-v1:0",
    "us.amazon.nova-micro-v1:0"
  ]

  const SummaryModel := "us.amazon.nova-pro-v1:0"
  const SentimentModel := "us.anthropic.claude-3-5-sonnet-20241022-v2:0"
  const QaModel := "mistral.mistral-large-2402-v1:0"

  /** Raises ValueError unless the identifier is on the allow-list. */
  function ValidateModelId(modelId: string): (r: Outcome<PyError>)
    ensures r == Pass <==> modelId in ModelIds
    ensures r.Fail? ==> r.error == ValueError("Invalid model ID: " + modelId)
  {
    if modelId !in ModelIds then Fail(ValueError("Invalid model ID: " + modelId)) else Pass
  }

  /** The allow-list names nine distinct models. */
  lemma AllowListSize()
    ensures |ModelIds| == 9
    ensures forall i, j :: 0 <= i < j < |ModelIds| ==> ModelIds[i] != ModelIds[j]
  {
  }

  /** The models the three built-in tasks use are all allowed, so their validation never raises. */
  lemma BuiltInModelsAllowed()
    ensures ValidateModelId(SummaryModel) == Pass
    ensures ValidateModelId(SentimentModel) == Pass
    ensures ValidateModelId(QaModel) == Pass
  {
  }

  /**
   * `response.get("output", {}).get("message", {}).get("content", [{}])[0].get("text", "")`:
   * every missing key falls back to a default that ends in `""`, but a
   * value of the wrong type or an empty content list still raises.
   */
  function ExtractText(response: Json): (r: Result<Json, PyError>)
    ensures MissingAt(response, [], "output") ==> r == Success(JString(""))
    ensures MissingAt(response, ["output"], "message") ==> r == Success(JString(""))
    ensures MissingAt(response, ["output", "message"], "content") ==> r == Success(JString(""))
    ensures Dig(response, ["output", "message", "content"]) == Some(JArray([])) ==> r == Failure(IndexError)
    ensures Dig(response, ["output"]).Some? && !Dig(response, ["output"]).value.JObject? ==> r == Failure(AttributeError)
    ensures Dig(response, ["output", "message"]).Some? && !Dig(response, ["output", "message"]).value.JObject?
            ==> r == Failure(AttributeError)
    ensures Dig(response, ["output", "message", "content"]).Some? && Dig(response, ["output", "message", "content"]).value.JObject?
            ==> r == Failure(KeyError(At(0)))
    ensures forall parts: seq<Json> :: Dig(response, ["output", "message", "content"]) == Some(JArray(parts)) && parts != [] ==>
              r == (if parts[0].JObject? then Success(if "text" in parts[0].fields then parts[0].fields["text"] else JString(""))
                    else Failure(AttributeError))
    ensures !response.JObject? ==> r == Failure(AttributeError)
  {
    var output :- Get(response, "output", EmptyObject);
    var message :- Get(output, "message", EmptyObject);
    var content :- Get(message, "content", JArray([EmptyObject]));
    var first :- Subscript(content, At(0));
    Get(first, "text", JString(""))
  }

  /**
   * Sends one converse request with the fixed inference config, reads the
   * usage counters and stop reason for logging (with defaults), and returns
   * the extracted text. Every exception is re-raised unchanged.
   */
  function GenerateConversation(modelId: string, systemPrompts: Json, messages: Json, converse: Converse)
    : (r: Result<Json, PyError>)
    ensures converse(ConverseCall(modelId, systemPrompts, messages)).Failure? ==>
              r == Failure(converse(ConverseCall(modelId, systemPrompts, messages)).error)
    ensures var reply := converse(ConverseCall(modelId, systemPrompts, messages));
            reply.Success? ==>
              r == if reply.value.JObject? && (Field(reply.value, "usage").None? || Field(reply.value, "usage").value.JObject?)
                   then ExtractText(reply.value)
                   else Failure(AttributeError)
    ensures forall text, i, o, stop :: converse(ConverseCall(modelId, systemPrompts, messages)) == Success(ConverseReply(text, i, o, stop))
              ==> r == Success(text)
  {
    var response :- converse(ConverseCall(modelId, systemPrompts, messages));
    var usage :- Get(response, "usage", EmptyObject);
    // The three counter reads and the stop-reason read can only raise on a
    // non-dict, so once `usage` is read from the dict `response`, the first
    // counter read decides them all.
    var _ :- Get(usage, "inputTokens", JInt(0));
    ExtractText(response)
  }

  const SummarySystemPrompt := "You are an app that creates summaries of text in 50 words or less."
  const SummaryPrefix := "Summarize the following text: "

  function SummaryPrompt(text: string): string
  {
    SummaryPrefix + text + "."
  }

  /** An empty text returns `""` before anything is validated or sent. */
  function SummarizeText(text: string, converse: Converse): (r: Result<Json, PyError>)
    ensures text == "" ==> r == Success(JString(""))
    ensures text != "" ==>
              r == GenerateConversation(SummaryModel, SystemPrompts(SummarySystemPrompt), UserMessages(SummaryPrompt(text)), converse)
  {
    if text == "" then Success(JString(""))
    else
      // The error branch is never taken (BuiltInModelsAllowed).
      if ValidateModelId(SummaryModel).Fail? then Failure(ValueError("Invalid model ID: " + SummaryModel))
      else GenerateConversation(SummaryModel, SystemPrompts(SummarySystemPrompt), UserMessages(SummaryPrompt(text)), converse)
  }

  const SentimentSystemPrompt := "You are a bot that takes text and returns a JSON object of sentiment analysis."

  /** An empty text returns `"{}"` before anything is validated or sent; otherwise the text is sent verbatim. */
  function SentimentAnalysis(text: string, converse: Converse): (r: Result<Json, PyError>)
    ensures text == "" ==> r == Success(JString("{}"))
    ensures text != "" ==>
              r == GenerateConversation(SentimentModel, SystemPrompts(SentimentSystemPrompt), UserMessages(text), converse)
  {
    if text == "" then Success(JString("{}"))
    else
      // The error branch is never taken (BuiltInModelsAllowed).
      if ValidateModelId(SentimentModel).Fail? then Failure(ValueError("Invalid model ID: " + SentimentModel))
      else GenerateConversation(SentimentModel, SystemPrompts(SentimentSystemPrompt), UserMessages(text), converse)
  }

  const QaSystemPrefix :=
    "Given the following text, answer the question. If the answer is not in the text, 'say you do not know'. Here is the text: "
  const QaInvalidInput := "Invalid input: Question and text are required."

  function QaSystemPrompt(text: string): string
  {
    QaSystemPrefix + text
  }

  /** The question goes in the user message and the context text in the system prompt. */
  function PerformQa(question: string, text: string, converse: Converse): (r: Result<Json, PyError>)
    ensures question == "" || text == "" ==> r == Success(JString(QaInvalidInput))
    ensures question != "" && text != "" ==>
              r == GenerateConversation(QaModel, SystemPrompts(QaSystemPrompt(text)), UserMessages(question), converse)
  {
    if question == "" || text == "" then Success(JString(QaInvalidInput))
    else
      // The error branch is never taken (BuiltInModelsAllowed).
      if ValidateModelId(QaModel).Fail? then Failure(ValueError("Invalid model ID: " + QaModel))
      else GenerateConversation(QaModel, SystemPrompts(QaSystemPrompt(text)), UserMessages(question), converse)
  }

  /**
   * Each task sends a single-turn request to its own allowed model, and the
   * caller's text can be read back out of the prompt it was placed in.
   */
  lemma TaskRequests(text: string, question: string)
    ensures ReadSingleTurn(ConverseCall(SummaryModel, SystemPrompts(SummarySystemPrompt), UserMessages(SummaryPrompt(text))))
            == Some(SingleTurn(SummaryModel, SummarySystemPrompt, SummaryPrompt(text)))
    ensures Strings.StripAffixes(SummaryPrompt(text), SummaryPrefix, ".") == Some(text)
    ensures ReadSingleTurn(ConverseCall(SentimentModel, SystemPrompts(SentimentSystemPrompt), UserMessages(text)))
            == Some(SingleTurn(SentimentModel, SentimentSystemPrompt, text))
    ensures ReadSingleTurn(ConverseCall(QaModel, SystemPrompts(QaSystemPrompt(text)), UserMessages(question)))
            == Some(SingleTurn(QaModel, QaSystemPrompt(text), question))
    ensures Strings.StripAffixes(QaSystemPrompt(text), QaSystemPrefix, "") == Some(text)
  {
    SingleTurnShape(ConverseCall(SummaryModel, SystemPrompts(SummarySystemPrompt), UserMessages(SummaryPrompt(text))),
                    SingleTurn(SummaryModel, SummarySystemPrompt, SummaryPrompt(text)));
    SingleTurnShape(ConverseCall(SentimentModel, SystemPrompts(SentimentSystemPrompt), UserMessages(text)),
                    SingleTurn(SentimentModel, SentimentSystemPrompt, text));
    SingleTurnShape(ConverseCall(QaModel, SystemPrompts(QaSystemPrompt(text)), UserMessages(question)),
                    SingleTurn(QaModel, QaSystemPrompt(text), question));
    Strings.StripAffixesInverse(SummaryPrefix, text, ".");
    Strings.StripAffixesInverse(QaSystemPrefix, text, "");
    assert QaSystemPrompt(text) == QaSystemPrefix + text + "";
  }
}
