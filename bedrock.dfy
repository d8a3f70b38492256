/**
 * The two entry points of the remote inference runtime the adapters call,
 * `invoke_model` and `converse`, reduced to what the local code sees: the
 * request it builds, and either the decoded reply or the exception raised.
 * The runtime itself is a parameter of every adapter; nothing here models
 * what it answers.
 */
module Bedrock {
  import opened Wrappers
  import opened PyJson

  const JsonMime := "application/json"

  /** `invoke_model(body=json.dumps(body), modelId=..., accept=..., contentType=...)`, with the body kept as a value. */
  datatype InvokeRequest = InvokeRequest(modelId: string, accept: string, contentType: string, body: Json)

  /** `json.loads(response.get("body").read())`, or what the call or the decoding raised. */
  type InvokeModel = InvokeRequest -> Result<Json, PyError>

  /** `converse(modelId=..., messages=..., system=..., inferenceConfig=...)`. */
  datatype ConverseRequest = ConverseRequest(modelId: string, messages: Json, system: Json, inferenceConfig: Json)

  /** The response dict of `converse`, or what the call raised. */
  type Converse = ConverseRequest -> Result<Json, PyError>

  /** An `invoke_model` request that sends and accepts JSON. */
  function JsonRequest(modelId: string, body: Json): (r: InvokeRequest)
    ensures r.accept == JsonMime && r.contentType == JsonMime
    ensures r.modelId == modelId && r.body == body
  {
    InvokeRequest(modelId, JsonMime, JsonMime, body)
  }

  /** `{"temperature": 0.5}`: every converse call uses this temperature and nothing else. */
  const InferenceConfig: Json := JObject(map["temperature" := JFloat(0.5)])

  /** The request a `generate_conversation` helper sends for the given model, system prompts and messages. */
  function ConverseCall(modelId: string, systemPrompts: Json, messages: Json): (r: ConverseRequest)
    ensures r.inferenceConfig == InferenceConfig
    ensures r.modelId == modelId && r.system == systemPrompts && r.messages == messages
  {
    ConverseRequest(modelId, messages, systemPrompts, InferenceConfig)
  }

  /** `[{"text": text}]`: a single system prompt. */
  function SystemPrompts(text: string): Json
  {
    JArray([TextPart(text)])
  }

  /** `[{"role": "user", "content": [{"text": text}]}]`: a single user message with one text part. */
  function UserMessages(text: string): Json
  {
    JArray([JObject(map["role" := JString("user"), "content" := JArray([TextPart(text)])])])
  }

  /** What a single-turn conversation request carries besides its fixed parts. */
  datatype SingleTurn = SingleTurn(modelId: string, system: string, user: string)

  /** The text of a part that is exactly `{"text": <string>}`. */
  function ReadTextPart(v: Json): Option<string>
  {
    if v.JObject? && v.fields.Keys == {"text"} && v.fields["text"].JString? then Some(v.fields["text"].s) else None
  }

  /**
   * Reads a converse request back, accepting exactly one system prompt, one
   * user message holding one text part, and the fixed inference config.
   */
  function ReadSingleTurn(r: ConverseRequest): Option<SingleTurn>
  {
    var sys :- Only(r.system);
    var s :- ReadTextPart(sys);
    var msg :- Only(r.messages);
    if msg.JObject? && msg.fields.Keys == {"role", "content"} && msg.fields["role"] == JString("user")
       && r.inferenceConfig == InferenceConfig
    then
      var part :- Only(msg.fields["content"]);
      var u :- ReadTextPart(part);
      Some(SingleTurn(r.modelId, s, u))
    else None
  }

  lemma ReadTextPartIff(v: Json, t: string)
    ensures ReadTextPart(v) == Some(t) <==> v == TextPart(t)
  {
  }

  /**
   * A request reads back as a single turn exactly when it is the request
   * built from one system prompt and one single-part user message.
   */
  lemma SingleTurnShape(r: ConverseRequest, t: SingleTurn)
    ensures ReadSingleTurn(r) == Some(t) <==> r == ConverseCall(t.modelId, SystemPrompts(t.system), UserMessages(t.user))
  {
    var want := ConverseCall(t.modelId, SystemPrompts(t.system), UserMessages(t.user));
    ReadTextPartIff(TextPart(t.system), t.system);
    ReadTextPartIff(TextPart(t.user), t.user);
    var wantMsg := want.messages.items[0];
    assert wantMsg.fields.Keys == {"role", "content"};
    if ReadSingleTurn(r) == Some(t) {
      ReadTextPartIff(r.system.items[0], t.system);
      var msg := r.messages.items[0];
      var part := msg.fields["content"].items[0];
      ReadTextPartIff(part, t.user);
      assert msg.fields["content"].items == [TextPart(t.user)];
      assert msg.fields == wantMsg.fields;
      assert r.system.items == [TextPart(t.system)];
      assert r.messages.items == [wantMsg];
    }
  }

  /** A well-formed converse response carrying `text` as its first content part. */
  function ConverseReply(text: Json, inputTokens: nat, outputTokens: nat, stopReason: string): Json
  {
    JObject(map[
      "output" := JObject(map["message" := JObject(map[
        "role" := JString("assistant"),
        "content" := JArray([JObject(map["text" := text])])])]),
      "usage" := JObject(map[
        "inputTokens" := JInt(inputTokens),
        "outputTokens" := JInt(outputTokens),
        "totalTokens" := JInt(inputTokens + outputTokens)]),
      "stopReason" := JString(stopReason)])
  }

  /**
   * `response_body.get("images")[0]` on the reply of an image model: the
   * first element of the `images` list, or the error that expression raises.
   */
  function FirstImage(reply: Result<Json, PyError>): (r: Result<Json, PyError>)
    ensures reply.Failure? ==> r == Failure(reply.error)
    ensures reply.Success? && !reply.value.JObject? ==> r == Failure(AttributeError)
    ensures reply.Success? && reply.value.JObject? && "images" !in reply.value.fields ==> r == Failure(TypeError)
    ensures reply.Success? && Field(reply.value, "images") == Some(JArray([])) ==> r == Failure(IndexError)
    ensures (reply.Success? && Field(reply.value, "images").Some?
             && Field(reply.value, "images").value.JArray? && |Field(reply.value, "images").value.items| > 0)
            ==> r == Success(Field(reply.value, "images").value.items[0])
  {
    var body :- reply;
    var images :- Get(body, "images", JNull);
    Subscript(images, At(0))
  }

  /** `{"images": [...]}`, the reply of an image model that produced images. */
  function ImagesReply(images: seq<string>): Json
  {
    JObject(map["images" := JArray(seq(|images|, i requires 0 <= i < |images| => JString(images[i])))])
  }

  lemma FirstOfImagesReply(images: seq<string>)
    requires images != []
    ensures FirstImage(Success(ImagesReply(images))) == Success(JString(images[0]))
  {
  }
}
