/**
 * What the two retrieval-augmented examples share, line for line: the
 * context built by appending the retrieved pages in order, the prompt
 * template around it, and a conversation helper that indexes the response
 * directly, so that every missing field raises.
 */
module Rag {
  import opened Wrappers
  import opened PyJson
  import opened Bedrock
  import Strings
  import GenText

  /** A retrieved chunk; only its page content is used. */
  datatype Document = Document(pageContent: string)

  /** The page contents of `docs`, in order, with no separator. */
  function Join(docs: seq<Document>): string
  {
    if docs == [] then "" else Join(docs[..|docs| - 1]) + docs[|docs| - 1].pageContent
  }

  /** `context = ""; for doc in docs: context += doc.page_content`. */
  method BuildContext(docs: seq<Document>) returns (context: string)
    ensures context == Join(docs)
  {
    context := "";
    for i := 0 to |docs|
      invariant context == Join(docs[..i])
    {
      assert docs[..i + 1][..i] == docs[..i];
      context := context + docs[i].pageContent;
    }
    assert docs[..|docs|] == docs;
  }

  /** Joining two runs of documents is joining each and appending. */
  lemma {:induction false} JoinAppend(a: seq<Document>, b: seq<Document>)
    ensures Join(a + b) == Join(a) + Join(b)
    decreases |b|
  {
    if b == [] {
      assert a + b == a;
    } else {
      var b' := b[..|b| - 1];
      assert (a + b)[..|a + b| - 1] == a + b';
      JoinAppend(a, b');
    }
  }

  /**
   * Each document's content sits in the context right after the contents
   * of the documents before it, so no page is lost, reordered or split.
   */
  lemma JoinPlacesEach(docs: seq<Document>, i: nat)
    requires i < |docs|
    ensures var start := |Join(docs[..i])|;
            && start + |docs[i].pageContent| <= |Join(docs)|
            && Join(docs)[start..start + |docs[i].pageContent|] == docs[i].pageContent
  {
    assert docs == docs[..i] + [docs[i]] + docs[i + 1..];
    JoinAppend(docs[..i] + [docs[i]], docs[i + 1..]);
    JoinAppend(docs[..i], [docs[i]]);
    assert Join([docs[i]]) == docs[i].pageContent by {
      assert [docs[i]][..0] == [];
    }
  }

  const PromptHead := "Use the following pieces of context to answer the question at the end.\n\n    "
  const PromptMiddle := "\n\n    Question: "
  const PromptTail := "\n    Answer:"

  /** The instruction line, then the context, then `Question: {query}`, ending with `Answer:`. */
  function Prompt(context: string, query: string): string
  {
    PromptHead + context + PromptMiddle + query + PromptTail
  }

  /** Takes a prompt apart again, given the length of the query it ends with. */
  function SplitPrompt(prompt: string, queryLength: nat): Option<(string, string)>
  {
    var body :- Strings.StripAffixes(prompt, PromptHead, PromptTail);
    if |body| < |PromptMiddle| + queryLength then None
    else
      var contextEnd := |body| - queryLength - |PromptMiddle|;
      if body[contextEnd..|body| - queryLength] == PromptMiddle
      then Some((body[..contextEnd], body[|body| - queryLength..]))
      else None
  }

  /** The template loses nothing: the context and query can be read back from the prompt. */
  lemma PromptRoundTrip(context: string, query: string)
    ensures SplitPrompt(Prompt(context, query), |query|) == Some((context, query))
  {
    var body := context + PromptMiddle + query;
    assert Prompt(context, query) == PromptHead + body + PromptTail;
    Strings.StripAffixesInverse(PromptHead, body, PromptTail);
    var contextEnd := |body| - |query| - |PromptMiddle|;
    assert body[contextEnd..|body| - |query|] == PromptMiddle;
    assert body[..contextEnd] == context;
    assert body[|body| - |query|..] == query;
  }

  /** `response["output"]["message"]["content"][0]["text"]`, with no defaults. */
  function ExtractStrict(response: Json): (r: Result<Json, PyError>)
    ensures var content := Dig(response, ["output", "message", "content"]);
            r.Success? <==> content.Some? && content.value.JArray? && content.value.items != []
                            && Field(content.value.items[0], "text").Some?
    ensures var content := Dig(response, ["output", "message", "content"]);
            r.Success? ==> r.value == Field(content.value.items[0], "text").value
    ensures MissingAt(response, [], "output") ==> r == Failure(KeyError(Key("output")))
    ensures MissingAt(response, ["output"], "message") ==> r == Failure(KeyError(Key("message")))
    ensures MissingAt(response, ["output", "message"], "content") ==> r == Failure(KeyError(Key("content")))
    ensures Dig(response, ["output", "message", "content"]) == Some(JArray([])) ==> r == Failure(IndexError)
  {
    var output :- Subscript(response, Key("output"));
    var message :- Subscript(output, Key("message"));
    var content :- Subscript(message, Key("content"));
    var first :- Subscript(content, At(0));
    Subscript(first, Key("text"))
  }

  /** The usage counters and the stop reason that the logging reads by direct indexing. */
  predicate HasUsage(response: Json)
  {
    && Dig(response, ["usage", "inputTokens"]).Some?
    && Dig(response, ["usage", "outputTokens"]).Some?
    && Dig(response, ["usage", "totalTokens"]).Some?
    && Field(response, "stopReason").Some?
  }

  /** The logging reads of `usage` and `stopReason`, which raise unless every field is there. */
  function ReadUsage(response: Json): (r: Result<(), PyError>)
    ensures r.Success? <==> HasUsage(response)
  {
    var usage :- Subscript(response, Key("usage"));
    var _ :- Subscript(usage, Key("inputTokens"));
    var _ :- Subscript(usage, Key("outputTokens"));
    var _ :- Subscript(usage, Key("totalTokens"));
    var _ :- Subscript(response, Key("stopReason"));
    Success(())
  }

  /**
   * Sends one converse request with the fixed inference config; a response
   * lacking a usage counter or the stop reason raises before extraction,
   * and extraction itself is strict.
   */
  function GenerateConversation(modelId: string, systemPrompts: Json, messages: Json, converse: Converse)
    : (r: Result<Json, PyError>)
    ensures var reply := converse(ConverseCall(modelId, systemPrompts, messages));
            && (reply.Failure? ==> r == Failure(reply.error))
            && (reply.Success? && !HasUsage(reply.value) ==> r.Failure?)
            && (reply.Success? && HasUsage(reply.value) ==> r == ExtractStrict(reply.value))
  {
    var response :- converse(ConverseCall(modelId, systemPrompts, messages));
    var _ :- ReadUsage(response);
    ExtractStrict(response)
  }

  /** A well-formed reply, with its usage counters and stop reason, yields its text. */
  lemma WellFormedReply(modelId: string, systemPrompts: Json, messages: Json, converse: Converse,
                        text: Json, inputTokens: nat, outputTokens: nat, stopReason: string)
    requires converse(ConverseCall(modelId, systemPrompts, messages)) == Success(ConverseReply(text, inputTokens, outputTokens, stopReason))
    ensures GenerateConversation(modelId, systemPrompts, messages, converse) == Success(text)
  {
  }

  /**
   * Wherever the strict extraction succeeds, the lenient one of the text
   * examples returns the same value: the two differ only on responses that
   * make the strict one raise.
   */
  lemma StrictAgreesWithLenient(response: Json)
    requires ExtractStrict(response).Success?
    ensures GenText.ExtractText(response) == ExtractStrict(response)
  {
  }

  /**
   * `rag_with_bedrock` once the similarity search has returned `docs`: the
   * pages are joined in order into the context and the prompt is sent as
   * the single user message, with one system prompt, to the given model.
   */
  method RagWithBedrock(modelId: string, systemPrompt: string, query: string, docs: seq<Document>, converse: Converse)
    returns (r: Result<Json, PyError>)
    ensures r == GenerateConversation(modelId, SystemPrompts(systemPrompt), UserMessages(Prompt(Join(docs), query)), converse)
  {
    var context := BuildContext(docs);
    var prompt := Prompt(context, query);
    r := GenerateConversation(modelId, SystemPrompts(systemPrompt), UserMessages(prompt), converse);
  }

  /** That request is a single turn whose user text is the prompt, from which context and query read back. */
  lemma RequestShape(modelId: string, systemPrompt: string, query: string, docs: seq<Document>)
    ensures var prompt := Prompt(Join(docs), query);
            && ReadSingleTurn(ConverseCall(modelId, SystemPrompts(systemPrompt), UserMessages(prompt)))
               == Some(SingleTurn(modelId, systemPrompt, prompt))
            && SplitPrompt(prompt, |query|) == Some((Join(docs), query))
  {
    var prompt := Prompt(Join(docs), query);
    SingleTurnShape(ConverseCall(modelId, SystemPrompts(systemPrompt), UserMessages(prompt)),
                    SingleTurn(modelId, systemPrompt, prompt));
    PromptRoundTrip(Join(docs), query);
  }
}
