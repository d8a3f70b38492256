/**
 * The text-to-image adapter: one constant-shaped request to the canvas
 * model and the first returned image, with no error handling at all.
 */
module ImageGen {
  import opened Wrappers
  import opened PyJson
  import opened Bedrock

  const CanvasModel := "amazon.nova-canvas-v1:0"

  /** One 1024 by 1024 image at cfg scale 8.0 with seed 0. */
  const TextImageConfig: Json := JObject(map[
    "numberOfImages" := JInt(1),
    "height" := JInt(1024),
    "width" := JInt(1024),
    "cfgScale" := JFloat(8.0),
    "seed" := JInt(0)])

  /** The prompt goes in verbatim, next to the fixed generation config. */
  function TextImageBody(text: string): Json
  {
    JObject(map[
      "taskType" := JString("TEXT_IMAGE"),
      "textToImageParams" := JObject(map["text" := JString(text)]),
      "imageGenerationConfig" := TextImageConfig])
  }

  function TextImageRequest(text: string): (r: InvokeRequest)
    ensures ReadTextImageRequest(r) == Some(text)
  {
    JsonRequest(CanvasModel, TextImageBody(text))
  }

  /**
   * Reads a text-to-image request back: the canvas model with JSON in and
   * out, a body and parameters with exactly the expected keys, task type
   * TEXT_IMAGE and the fixed generation config; returns the prompt.
   */
  function ReadTextImageRequest(r: InvokeRequest): Option<string>
  {
    if r.modelId != CanvasModel || r.accept != JsonMime || r.contentType != JsonMime
       || !HasKeys(r.body, {"taskType", "textToImageParams", "imageGenerationConfig"})
    then None
    else
      var params := r.body.fields["textToImageParams"];
      if r.body.fields["taskType"] == JString("TEXT_IMAGE") && r.body.fields["imageGenerationConfig"] == TextImageConfig
         && HasKeys(params, {"text"}) && params.fields["text"].JString?
      then Some(params.fields["text"].s)
      else None
  }

  /** A request reads back as a prompt exactly when it is the text-to-image request for that prompt. */
  lemma TextImageRequestShape(r: InvokeRequest, text: string)
    ensures ReadTextImageRequest(r) == Some(text) <==> r == TextImageRequest(text)
  {
    if ReadTextImageRequest(r) == Some(text) {
      var want := TextImageBody(text);
      assert r.body.fields["textToImageParams"].fields == want.fields["textToImageParams"].fields;
      assert r.body.fields == want.fields;
    }
  }

  /**
   * `generate_image_nova`: the first element of the reply's `images`; the
   * call's own errors and those of the unwrapping propagate to the caller.
   */
  function GenerateImageNova(text: string, invoke: InvokeModel): (r: Result<Json, PyError>)
    ensures
      var reply := invoke(TextImageRequest(text));
      && (reply.Failure? ==> r == Failure(reply.error))
      && (reply.Success? && MissingAt(reply.value, [], "images") ==> r == Failure(TypeError))
      && (reply.Success? && Field(reply.value, "images") == Some(JArray([])) ==> r == Failure(IndexError))
      && (forall images: seq<Json> :: reply.Success? && Field(reply.value, "images") == Some(JArray(images)) && images != [] ==>
            r == Success(images[0]))
  {
    FirstImage(invoke(TextImageRequest(text)))
  }

  /** Against an endpoint that returns a fixed list of images, the adapter returns exactly the first one. */
  lemma StubEndpointScenario(text: string, images: seq<string>, invoke: InvokeModel)
    requires images != []
    requires invoke(TextImageRequest(text)) == Success(ImagesReply(images))
    ensures GenerateImageNova(text, invoke) == Success(JString(images[0]))
  {
    FirstOfImagesReply(images);
  }
}
