/**
 * The image-variation adapter: an image given as a file path or a PIL
 * image is turned into base64, sent with the change prompt in a
 * constant-shaped variation request, and the first returned image is
 * decoded; the pipeline answers None for every failure.
 */
module ImageToImage {
  import opened Wrappers
  import opened PyJson
  import opened Bedrock
  import opened Pil

  /** The dynamically typed argument of `image_to_base64`. */
  datatype ImageArg =
    | PathArg(path: string)
    | PilArg(image: PilImage)
    /** Any other Python value, by the name of its type. */
    | OtherArg(typeName: string)

  /**
   * What the pipeline uses of its surroundings: the files that exist (each
   * with the base64 encoding of its bytes), `Image.save` followed by base64
   * encoding (or the error either raises),
   * `base64_to_pil` (None when decoding or opening raises) and the remote
   * `invoke_model`.
   */
  datatype Host = Host(
    files: map<string, string>,
    save: (PilImage, SaveOptions) -> Result<string, PyError>,
    decodeImage: Json -> Option<PilImage>,
    invoke: InvokeModel)

  /** The options of `img.save(buffer, format="PNG")`: no optimisation and no quality setting. */
  const PngSave := SaveOptions("PNG", false, None)

  /** A path must name an existing file, a PIL image is saved as PNG, anything else raises ValueError. */
  function ImageToBase64(img: ImageArg, host: Host): (r: Result<string, PyError>)
    ensures img.PathArg? && img.path in host.files ==> r == Success(host.files[img.path])
    ensures img.PathArg? && img.path !in host.files ==> r == Failure(FileNotFoundError("File " + img.path + " does not exist"))
    ensures img.PilArg? ==> r == host.save(img.image, PngSave)
    ensures img.OtherArg? ==>
              r == Failure(ValueError("Expected str (filename) or PIL Image. Got <class '" + img.typeName + "'>"))
  {
    match img
    case PathArg(path) =>
      if path in host.files then Success(host.files[path])
      else Failure(FileNotFoundError("File " + path + " does not exist"))
    case PilArg(image) => host.save(image, PngSave)
    case OtherArg(typeName) => Failure(ValueError("Expected str (filename) or PIL Image. Got <class '" + typeName + "'>"))
  }

  const CanvasModel := "amazon.nova-canvas-v1:0"
  const NovaModelName := "Amazon Nova"
  const DefaultSimilarity: real := 0.7

  /** One 512 by 512 image at cfg scale 8.0, with no seed. */
  const VariationConfig: Json := JObject(map[
    "numberOfImages" := JInt(1),
    "height" := JInt(512),
    "width" := JInt(512),
    "cfgScale" := JFloat(8.0)])

  /** The variation request body; the similarity strength is copied in without any range check. */
  function VariationBody(changePrompt: string, initImage: string, similarityStrength: real): Json
  {
    JObject(map[
      "taskType" := JString("IMAGE_VARIATION"),
      "imageVariationParams" := JObject(map[
        "text" := JString(changePrompt),
        "images" := JArray([JString(initImage)]),
        "similarityStrength" := JFloat(similarityStrength)]),
      "imageGenerationConfig" := VariationConfig])
  }

  /** What a variation request carries besides its fixed parts. */
  datatype VariationParams = VariationParams(changePrompt: string, initImage: string, similarityStrength: real)

  function VariationRequest(changePrompt: string, initImage: string, similarityStrength: real): (r: InvokeRequest)
    ensures ReadVariationRequest(r) == Some(VariationParams(changePrompt, initImage, similarityStrength))
  {
    JsonRequest(CanvasModel, VariationBody(changePrompt, initImage, similarityStrength))
  }

  /**
   * Reads a variation request back: a body and parameters with exactly the
   * expected keys, task type IMAGE_VARIATION, exactly one input image, and
   * the fixed generation config.
   */
  function ReadVariationRequest(r: InvokeRequest): Option<VariationParams>
  {
    if r.modelId != CanvasModel || r.accept != JsonMime || r.contentType != JsonMime
       || !HasKeys(r.body, {"taskType", "imageVariationParams", "imageGenerationConfig"})
    then None
    else
      var params := r.body.fields["imageVariationParams"];
      if r.body.fields["taskType"] == JString("IMAGE_VARIATION") && r.body.fields["imageGenerationConfig"] == VariationConfig
         && HasKeys(params, {"text", "images", "similarityStrength"})
         && params.fields["text"].JString? && params.fields["similarityStrength"].JFloat?
      then
        var image :- Only(params.fields["images"]);
        var b64 :- Str(image);
        Some(VariationParams(params.fields["text"].s, b64, params.fields["similarityStrength"].f))
      else None
  }

  /** A request reads back as some parameters exactly when it is the variation request built from them. */
  lemma VariationRequestShape(r: InvokeRequest, p: VariationParams)
    ensures ReadVariationRequest(r) == Some(p) <==> r == VariationRequest(p.changePrompt, p.initImage, p.similarityStrength)
  {
    if ReadVariationRequest(r) == Some(p) {
      var want := VariationBody(p.changePrompt, p.initImage, p.similarityStrength);
      var params := r.body.fields["imageVariationParams"];
      assert params.fields["images"].items == [JString(p.initImage)];
      assert params.fields == want.fields["imageVariationParams"].fields;
      assert r.body.fields == want.fields;
    }
  }

  /** The generation config has no seed field, unlike that of text-to-image requests. */
  lemma VariationHasNoSeed(changePrompt: string, initImage: string, similarityStrength: real)
    ensures MissingAt(VariationRequest(changePrompt, initImage, similarityStrength).body, ["imageGenerationConfig"], "seed")
  {
  }

  /** `nova_update_image`: the first returned image, or None (JNull) for any failure. */
  function NovaUpdateImage(changePrompt: string, initImage: string, invoke: InvokeModel,
                           similarityStrength: real := DefaultSimilarity): (r: Json)
    ensures
      var reply := invoke(VariationRequest(changePrompt, initImage, similarityStrength));
      && (reply.Failure? ==> r == JNull)
      && (reply.Success? && Field(reply.value, "images").None? ==> r == JNull)
      && (reply.Success? && Field(reply.value, "images") == Some(JArray([])) ==> r == JNull)
      && ((reply.Success? && Field(reply.value, "images").Some?
           && !Field(reply.value, "images").value.JArray? && !Field(reply.value, "images").value.JString?) ==> r == JNull)
      && (forall s: string :: reply.Success? && Field(reply.value, "images") == Some(JString(s)) ==>
            r == if s == [] then JNull else JString([s[0]]))
      && (forall images: seq<Json> :: reply.Success? && Field(reply.value, "images") == Some(JArray(images)) && images != [] ==>
            r == images[0])
  {
    match FirstImage(invoke(VariationRequest(changePrompt, initImage, similarityStrength)))
    case Success(image) => image
    case Failure(_) => JNull
  }

  /**
   * `update_image_pipeline`: only the "Amazon Nova" model is served; the
   * input is always encoded first, a falsy variation result or any raised
   * error gives None.
   */
  function UpdateImagePipeline(userImage: ImageArg, changePrompt: string, model: string, host: Host,
                               similarityStrength: real := DefaultSimilarity): (r: Option<PilImage>)
    ensures model != NovaModelName ==> r.None?
    ensures ImageToBase64(userImage, host).Failure? ==> r.None?
    ensures model == NovaModelName && ImageToBase64(userImage, host).Success? ==>
              var updated := NovaUpdateImage(changePrompt, ImageToBase64(userImage, host).value, host.invoke, similarityStrength);
              r == if Truthy(updated) then host.decodeImage(updated) else None
  {
    match ImageToBase64(userImage, host)
    case Failure(_) => None
    case Success(initImage) =>
      if model == NovaModelName then
        var updated := NovaUpdateImage(changePrompt, initImage, host.invoke, similarityStrength);
        if Truthy(updated) then host.decodeImage(updated) else None
      else None
  }

  /** A failed variation call never reaches decoding: the pipeline answers None. */
  lemma FailedVariationGivesNone(userImage: ImageArg, changePrompt: string, host: Host, similarityStrength: real)
    requires ImageToBase64(userImage, host).Success?
    requires host.invoke(VariationRequest(changePrompt, ImageToBase64(userImage, host).value, similarityStrength)).Failure?
    ensures UpdateImagePipeline(userImage, changePrompt, NovaModelName, host, similarityStrength).None?
  {
  }

  /** What the "Update Image" button leads to. */
  datatype UpdateOutcome = PromptWarning | Generated(image: Option<PilImage>)

  /** An empty change prompt only warns; otherwise the pipeline runs on the uploaded image. */
  function OnUpdateImage(userImage: PilImage, changePrompt: string, model: string, host: Host, similarityStrength: real)
    : (r: UpdateOutcome)
    ensures r == PromptWarning <==> changePrompt == ""
    ensures changePrompt != "" ==>
              r == Generated(UpdateImagePipeline(PilArg(userImage), changePrompt, model, host, similarityStrength))
  {
    if changePrompt == "" then PromptWarning
    else Generated(UpdateImagePipeline(PilArg(userImage), changePrompt, model, host, similarityStrength))
  }
}
