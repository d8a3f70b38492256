/**
 * The image upload validator and captioning adapter: a size check against
 * 5 MiB, then a format check against PNG/JPEG/JPG, then a fixed vision
 * request whose reply is mapped to a caption or to a fixed error string.
 */
module ImageUnderstanding {
  import opened Wrappers
  import opened PyJson
  import opened Bedrock
  import opened Pil
  import Strings

  const SupportedFormats: seq<string> := ["PNG", "JPEG", "JPG"]
  const MaxImageSize: nat := 5 * 1024 * 1024

  /** An uploaded file: its byte length, and what `Image.open` makes of it (None when it raises). */
  datatype Upload = Upload(size: nat, decoded: Option<PilImage>)

  /** Which guard turned the upload away; the source shows each as an error message and returns None. */
  datatype Rejection = TooLarge | UnsupportedFormat | ProcessingError

  predicate IsSupportedFormat(format: string)
  {
    Strings.Upper(format) in SupportedFormats
  }

  /**
   * The size is checked before the image is opened, then the upper-cased
   * format is checked; a failure to open or a format of None ends in the
   * catch-all rejection.
   */
  function ValidateImage(upload: Upload): (r: Result<PilImage, Rejection>)
    ensures r.Success? <==>
              && upload.size <= MaxImageSize
              && upload.decoded.Some? && upload.decoded.value.format.Some?
              && IsSupportedFormat(upload.decoded.value.format.value)
    ensures r.Success? ==> r.value == upload.decoded.value
    ensures upload.size > MaxImageSize ==> r == Failure(TooLarge)
    ensures (upload.size <= MaxImageSize && upload.decoded.Some? && upload.decoded.value.format.Some?
             && !IsSupportedFormat(upload.decoded.value.format.value)) ==> r == Failure(UnsupportedFormat)
    ensures (upload.size <= MaxImageSize && (upload.decoded.None? || upload.decoded.value.format.None?))
            ==> r == Failure(ProcessingError)
  {
    if upload.size > MaxImageSize then Failure(TooLarge)
    else if upload.decoded.None? || upload.decoded.value.format.None? then Failure(ProcessingError)
    else if !IsSupportedFormat(upload.decoded.value.format.value) then Failure(UnsupportedFormat)
    else Success(upload.decoded.value)
  }

  /** The size limit is inclusive: an upload of exactly 5 MiB passes the size check, one byte more does not. */
  lemma SizeLimitBoundary(format: string)
    ensures ValidateImage(Upload(5242880, Some(PilImage(Some("PNG"))))).Success?
    ensures ValidateImage(Upload(5242881, Some(PilImage(Some(format))))) == Failure(TooLarge)
  {
    assert Strings.Upper("PNG") == "PNG";
  }

  /** A format is accepted exactly when it spells PNG, JPEG or JPG in any mix of letter cases. */
  lemma SupportedFormatIff(format: string)
    ensures IsSupportedFormat(format) <==>
              || Strings.MatchesIgnoringCase(format, "PNG")
              || Strings.MatchesIgnoringCase(format, "JPEG")
              || Strings.MatchesIgnoringCase(format, "JPG")
  {
    Strings.UpperEqualsIff(format, "PNG");
    Strings.UpperEqualsIff(format, "JPEG");
    Strings.UpperEqualsIff(format, "JPG");
  }

  /** JPEG and JPG (in any case) are saved at quality 85; every format is saved optimised. */
  function SaveOptionsFor(format: string): (o: SaveOptions)
    ensures o.format == format && o.optimize
    ensures o.quality.Some? <==> Strings.Upper(format) in ["JPEG", "JPG"]
    ensures o.quality.Some? ==> o.quality.value == 85
  {
    if Strings.Upper(format) in ["JPEG", "JPG"] then SaveOptions(format, true, Some(85))
    else SaveOptions(format, true, None)
  }

  /**
   * `pil_to_base64`: `save` stands for PIL's `save` followed by base64
   * encoding, yielding None when either raises; an error gives `""`.
   */
  function PilToBase64(image: PilImage, save: (PilImage, SaveOptions) -> Option<string>, format: string := "PNG")
    : (r: string)
    ensures save(image, SaveOptionsFor(format)).None? ==> r == ""
    ensures save(image, SaveOptionsFor(format)).Some? ==> r == save(image, SaveOptionsFor(format)).value
  {
    match save(image, SaveOptionsFor(format))
    case Some(encoded) => encoded
    case None => ""
  }

  const CaptionModel := "us.anthropic.claude-3-5-sonnet-20241022-v2:0"
  const CaptionInstruction := "Provide a caption for this image"
  const NoDescription := "No description available"
  const ErrorDescription := "Error generating description"

  /** The part asking for a caption, after the image part. */
  const CaptionTextPart: Json := JObject(map["type" := JString("text"), "text" := JString(CaptionInstruction)])

  /** The image part: PNG data in base64. */
  function ImagePart(base64: string): Json
  {
    JObject(map[
      "type" := JString("image"),
      "source" := JObject(map[
        "type" := JString("base64"),
        "media_type" := JString("image/png"),
        "data" := JString(base64)])])
  }

  /** The vision request body: one user message, the PNG image part first, then the caption instruction. */
  function CaptionBody(base64: string): Json
  {
    JObject(map[
      "anthropic_version" := JString("bedrock-2023-05-31"),
      "max_tokens" := JInt(4096),
      "messages" := JArray([JObject(map[
        "role" := JString("user"),
        "content" := JArray([ImagePart(base64), CaptionTextPart])])])])
  }

  function CaptionRequest(base64: string): (r: InvokeRequest)
    ensures ReadCaptionRequest(r) == Some(base64)
  {
    JsonRequest(CaptionModel, CaptionBody(base64))
  }

  /** The data of a part that is exactly an image part. */
  function ReadImagePart(part: Json): Option<string>
  {
    if HasKeys(part, {"type", "source"}) && part.fields["type"] == JString("image") then
      var source := part.fields["source"];
      if HasKeys(source, {"type", "media_type", "data"}) && source.fields["type"] == JString("base64")
         && source.fields["media_type"] == JString("image/png") && source.fields["data"].JString?
      then Some(source.fields["data"].s)
      else None
    else None
  }

  /**
   * Reads a captioning request back: the fixed model, version and token
   * limit, and exactly one user message holding an image part and then
   * the caption instruction, each dict with exactly its expected keys;
   * returns the image data it carries.
   */
  function ReadCaptionRequest(r: InvokeRequest): Option<string>
  {
    if r.modelId != CaptionModel || r.accept != JsonMime || r.contentType != JsonMime
       || !HasKeys(r.body, {"anthropic_version", "max_tokens", "messages"})
       || r.body.fields["anthropic_version"] != JString("bedrock-2023-05-31") || r.body.fields["max_tokens"] != JInt(4096)
    then None
    else
      var message :- Only(r.body.fields["messages"]);
      if HasKeys(message, {"role", "content"}) && message.fields["role"] == JString("user")
         && message.fields["content"].JArray? && |message.fields["content"].items| == 2
         && message.fields["content"].items[1] == CaptionTextPart
      then ReadImagePart(message.fields["content"].items[0])
      else None
  }

  lemma ImagePartShape(part: Json, base64: string)
    ensures ReadImagePart(part) == Some(base64) <==> part == ImagePart(base64)
  {
    if ReadImagePart(part) == Some(base64) {
      assert part.fields["source"].fields == ImagePart(base64).fields["source"].fields;
      assert part.fields == ImagePart(base64).fields;
    }
  }

  /** A request reads back as some image data exactly when it is the captioning request for that data. */
  lemma CaptionRequestShape(r: InvokeRequest, base64: string)
    ensures ReadCaptionRequest(r) == Some(base64) <==> r == CaptionRequest(base64)
  {
    if ReadCaptionRequest(r) == Some(base64) {
      var want := CaptionBody(base64);
      var message := r.body.fields["messages"].items[0];
      ImagePartShape(message.fields["content"].items[0], base64);
      assert message.fields["content"].items == [ImagePart(base64), CaptionTextPart];
      assert message.fields == want.fields["messages"].items[0].fields;
      assert r.body.fields["messages"].items == want.fields["messages"].items;
      assert r.body.fields == want.fields;
    }
  }

  /**
   * `response_body.get("content")[0].get("text", "No description available")`,
   * or the exception it raises.
   */
  function CaptionFrom(reply: Result<Json, PyError>): Result<Json, PyError>
  {
    var body :- reply;
    var content :- Get(body, "content", JNull);
    var first :- Subscript(content, At(0));
    Get(first, "text", JString(NoDescription))
  }

  /**
   * `call_claude_sonnet`: the caption, or the default when the first part
   * has no text; every failure, a client error or any other, becomes the
   * fixed error string, so nothing is raised.
   */
  function CallClaudeSonnet(base64: string, invoke: InvokeModel): (r: Json)
    ensures invoke(CaptionRequest(base64)).Failure? ==> r == JString(ErrorDescription)
    ensures invoke(CaptionRequest(base64)).Success? ==>
              var body := invoke(CaptionRequest(base64)).value;
              !(Field(body, "content").Some? && Field(body, "content").value.JArray?
                && Field(body, "content").value.items != [] && Field(body, "content").value.items[0].JObject?)
              ==> r == JString(ErrorDescription)
    ensures invoke(CaptionRequest(base64)).Success? ==>
              var body := invoke(CaptionRequest(base64)).value;
              && (MissingAt(body, [], "content") ==> r == JString(ErrorDescription))
              && (Field(body, "content") == Some(JArray([])) ==> r == JString(ErrorDescription))
              && (forall parts: seq<Json> :: Field(body, "content") == Some(JArray(parts)) && parts != [] && parts[0].JObject? ==>
                    r == if "text" in parts[0].fields then parts[0].fields["text"] else JString(NoDescription))
  {
    match CaptionFrom(invoke(CaptionRequest(base64)))
    case Success(caption) => caption
    case Failure(_) => JString(ErrorDescription)
  }

  /**
   * The "Describe Image" action: a valid upload is encoded as PNG and, when
   * that yields a non-empty string, captioned. Nothing is sent for a
   * rejected upload or a failed encoding.
   */
  function DescribeUpload(upload: Upload, save: (PilImage, SaveOptions) -> Option<string>, invoke: InvokeModel)
    : (r: Option<Json>)
    ensures ValidateImage(upload).Failure? ==> r.None?
    ensures upload.size > MaxImageSize ==> r.None?
    ensures ValidateImage(upload).Success? ==>
              var encoded := PilToBase64(ValidateImage(upload).value, save);
              r == if encoded == "" then None else Some(CallClaudeSonnet(encoded, invoke))
  {
    match ValidateImage(upload)
    case Failure(_) => None
    case Success(image) =>
      var encoded := PilToBase64(image, save);
      if encoded == "" then None else Some(CallClaudeSonnet(encoded, invoke))
  }
}
