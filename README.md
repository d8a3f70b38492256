# Verified model of the generative-AI demo adapters

The repository is a set of demo front-ends. Each one calls a managed inference
runtime: text summarisation, sentiment analysis and question answering, image
captioning, text-to-image, image variation, and retrieval-augmented question
answering. This project models the local logic around each remote call:

- the model allow-list;
- the request payloads;
- the empty-input short-circuits;
- the upload validation checks;
- the response extractors and their error mapping;
- the retrieval context loop.

It then proves what each piece promises.

Wire data is a small JSON datatype, `PyJson.Json`. Python's `None` is `JNull`.
Python exceptions are `PyJson.PyError`, carried in a `Result`. `Subscript` and
`Get` model Python's `v[k]` and `v.get(k, d)` on decoded values. They keep
Python's behaviour:

- `.get` on a non-dict is an AttributeError;
- a missing key is a KeyError;
- an index past the end is an IndexError;
- indexing a string yields a one-character string.

The inference runtime is a function parameter (`Bedrock.InvokeModel`,
`Bedrock.Converse`). It returns the decoded reply or the exception raised. PIL,
base64, the file system and `base64_to_pil` are parameters too (the `save`
argument, `ImageToImage.Host`).

Each constant-shaped request builder has a reader as its partner
(`ReadSingleTurn`, `ReadCaptionRequest`, `ReadVariationRequest`,
`ReadTextImageRequest`). A reader checks every fixed part, and that each dict
has exactly its expected keys, then gives back the variable parts. The
builder's contract is the round trip through its reader. A companion lemma
(`SingleTurnShape`, `CaptionRequestShape`, `VariationRequestShape`,
`TextImageRequestShape`) proves the converse: a request that reads back is
exactly the one built from what it read.

Modules, one per source file plus shared pieces:

- `Wrappers`, `PyJson`, `Strings`, `Pil`: plumbing.
- `Bedrock`: request and reply shapes shared by several files.
- `GenText`, `ImageUnderstanding`, `ImageToImage`, `ImageGen`, `BaseRag`,
  `ChatWithPdf`: one per source file.
- `Rag`: the code that `base_rag.py` and `chat_with_pdf.py` share line for line.
  Its rows cite `base_rag.py`. The matching lines in `chat_with_pdf.py` are:
  - `generate_conversation`: base_rag.py:43-72 is chat_with_pdf.py:40-69;
  - the usage reads: base_rag.py:64-68 is chat_with_pdf.py:61-65;
  - the extraction: base_rag.py:70 is chat_with_pdf.py:67;
  - the context loop: base_rag.py:83-86 is chat_with_pdf.py:92-95;
  - the prompt: base_rag.py:88-93 is chat_with_pdf.py:97-102;
  - the request and call: base_rag.py:82-106 is chat_with_pdf.py:91-120.

## Model

| member | source | states |
|---|---|---|
| `GenText.ValidateModelId` | text_examples/gen_text.py:32-43 | Passes exactly when the identifier is on the allow-list; otherwise raises ValueError("Invalid model ID: " + id). |
| `GenText.AllowListSize` | text_examples/gen_text.py:10-20 | The allow-list holds nine distinct identifiers. |
| `GenText.BuiltInModelsAllowed` | text_examples/gen_text.py:102-103 | The models of summary (nova-pro), sentiment (claude-3-5-sonnet, :128-129) and QA (mistral-large, :155-156) all pass validation, so the tasks never raise ValueError. |
| `GenText.ExtractText` | text_examples/gen_text.py:83 | Lenient extraction: a missing `output`, `message`, `content` or `text` key gives `""`. A non-empty content list gives its first part's `text`, or `""` when that part has none; a first part that is not a dict raises AttributeError. An empty content list raises IndexError, and a `content` that is a dict raises KeyError(0). A non-dict response, `output` or `message` raises AttributeError. |
| `GenText.GenerateConversation` | text_examples/gen_text.py:64-87 | A raised call error is re-raised unchanged. Any other reply gives the lenient extraction, except that a non-dict reply or a `usage` that is present but not a dict raises AttributeError; the extraction's own IndexError and AttributeError are re-raised too. So a reply `{}` gives `""`, and a well-formed reply yields its first content text. |
| `GenText.SummarizeText` | text_examples/gen_text.py:99-113 | Empty text gives `""` whatever the endpoint. Other text sends the summary system prompt and "Summarize the following text: {text}." to nova-pro. |
| `GenText.SentimentAnalysis` | text_examples/gen_text.py:125-139 | Empty text gives `"{}"` whatever the endpoint. Other text is sent verbatim to claude-3-5-sonnet. |
| `GenText.PerformQa` | text_examples/gen_text.py:152-166 | An empty question or text gives "Invalid input: Question and text are required.". Otherwise the question is the user message and the text is embedded in the system prompt, sent to mistral-large. |
| `GenText.TaskRequests` | text_examples/gen_text.py:105-111 | Each task's request, including those at :131-137 and :158-164, reads back as one system prompt plus one single-part user message to its model. The caller's text is recoverable from the summary and QA templates. |
| `Bedrock.ConverseCall` | text_examples/gen_text.py:67-74 | Every converse request carries the inference config `{temperature: 0.5}` and nothing else. |
| `Bedrock.SingleTurnShape` | text_examples/gen_text.py:105-111 | A converse request reads back as a single turn if and only if it is one system prompt, one user message with one text part, and the fixed config. |
| `Bedrock.JsonRequest` | image_examples/image_gen_st.py:28-31 | Invoke requests send and accept "application/json". |
| `Bedrock.FirstImage` | image_examples/image_gen_st.py:52 | `images[0]` of a reply. A raised call error propagates; a non-dict body is an AttributeError; a missing `images` is a TypeError; an empty list is an IndexError; a non-empty list gives its first element. |
| `Bedrock.FirstOfImagesReply` | image_examples/image_gen_st.py:50-54 | A reply listing base64 images yields the first of them. |
| `Strings.Upper` | image_examples/image_understanding_st.py:92 | Upper-casing keeps the length and upper-cases each ASCII letter in place. |
| `Strings.UpperEqualsIff` | image_examples/image_understanding_st.py:92 | Upper-casing and comparing with an upper-case name is exactly a case-insensitive match. |
| `Strings.StripAffixes` | text_examples/gen_text.py:110 | Stripping a template's prefix and suffix, when it succeeds, gives the middle the template was filled with. |
| `Strings.StripAffixesInverse` | text_examples/gen_text.py:110 | Filling a template and stripping it gives back the original text. |
| `ImageUnderstanding.ValidateImage` | image_examples/image_understanding_st.py:82-99 | Accepts if and only if the size is at most 5 MiB, the image opens, and the upper-cased format is PNG, JPEG or JPG. The size check comes first, so oversized input is TooLarge whatever its format. Open failures end in the catch-all rejection. |
| `ImageUnderstanding.SizeLimitBoundary` | image_examples/image_understanding_st.py:85-88 | Exactly 5,242,880 bytes passes; 5,242,881 bytes is TooLarge for any format. |
| `ImageUnderstanding.SupportedFormatIff` | image_examples/image_understanding_st.py:92-94 | A format is accepted if and only if it spells PNG, JPEG or JPG in any mix of letter case. |
| `ImageUnderstanding.SaveOptionsFor` | image_examples/image_understanding_st.py:73-76 | Quality 85 is set if and only if the format is JPEG or JPG, case-insensitively. Saving is always optimised and uses the given format. |
| `ImageUnderstanding.PilToBase64` | image_examples/image_understanding_st.py:69-80 | Returns the encoding, or `""` when saving or encoding raises. The format defaults to "PNG". |
| `ImageUnderstanding.ImagePartShape` | image_examples/image_understanding_st.py:35-42 | A content part reads back as image data if and only if it is exactly the PNG base64 image part carrying that data. |
| `ImageUnderstanding.CaptionRequestShape` | image_examples/image_understanding_st.py:28-57 | A request reads back as some image data if and only if it is exactly the captioning request for that data: no extra keys, messages or parts. |
| `ImageUnderstanding.CaptionRequest` | image_examples/image_understanding_st.py:28-57 | Reads back as: version "bedrock-2023-05-31" and max_tokens 4096; one user message whose PNG image part carries the data and comes before the text "Provide a caption for this image"; the sonnet model, JSON in and out. |
| `ImageUnderstanding.CallClaudeSonnet` | image_examples/image_understanding_st.py:26-67 | Gives `content[0].text`, or "No description available" when that part has no `text`. Any failure gives "Error generating description": a raised error, or a `content` that is not a non-empty list whose first part is a dict. It never raises. |
| `ImageUnderstanding.DescribeUpload` | image_examples/image_understanding_st.py:105-124 | A rejected upload (in particular an oversized one) or an empty encoding sends nothing. Otherwise the PNG encoding is captioned. |
| `ImageToImage.ImageToBase64` | image_examples/image_to_image_st.py:20-35 | A path to an existing file gives its encoding; any other path raises FileNotFoundError. A PIL image goes through `save` with format "PNG" and no other option. Any other value raises ValueError. |
| `ImageToImage.VariationRequest` | image_examples/image_to_image_st.py:63-85 | Reads back as: task IMAGE_VARIATION, the prompt, exactly the one input image, and the similarity strength unchanged with no range check; config numberOfImages 1, 512 by 512, cfgScale 8.0; canvas model. |
| `ImageToImage.VariationRequestShape` | image_examples/image_to_image_st.py:63-85 | A request reads back as some parameters if and only if it is exactly the variation request built from them: no extra keys and one input image. |
| `ImageToImage.VariationHasNoSeed` | image_examples/image_to_image_st.py:71-76 | The variation generation config has no `seed` field. |
| `ImageToImage.NovaUpdateImage` | image_examples/image_to_image_st.py:53-91 | Gives `images[0]` of the reply. Any failure gives None: a raised error, or an `images` that is missing, empty, or neither a list nor a string. A string `images` gives its first character, as Python indexing does. Similarity strength defaults to 0.7. |
| `ImageToImage.UpdateImagePipeline` | image_examples/image_to_image_st.py:93-119 | None for any model but "Amazon Nova" and for an input that fails to encode. Otherwise a falsy variation result gives None and a truthy one is decoded. |
| `ImageToImage.FailedVariationGivesNone` | image_examples/image_to_image_st.py:108-116 | A failed variation call makes the pipeline answer None. |
| `ImageToImage.OnUpdateImage` | image_examples/image_to_image_st.py:153-163 | An empty change prompt gives the warning and nothing else. Otherwise the pipeline runs on the uploaded image. |
| `ImageGen.TextImageRequest` | image_examples/image_gen_st.py:28-49 | Reads back as: task TEXT_IMAGE, the prompt verbatim, config numberOfImages 1, 1024 by 1024, cfgScale 8.0, seed 0; model "amazon.nova-canvas-v1:0", JSON in and out. |
| `ImageGen.TextImageRequestShape` | image_examples/image_gen_st.py:28-49 | A request reads back as a prompt if and only if it is exactly the text-to-image request for that prompt: no extra keys. |
| `ImageGen.GenerateImageNova` | image_examples/image_gen_st.py:18-54 | Gives the first image. Call errors propagate, a missing `images` raises TypeError, and an empty list raises IndexError: there is no error handling. |
| `ImageGen.StubEndpointScenario` | image_examples/image_gen_st.py:50-54 | Against an endpoint that returns fixed base64 images, the adapter returns exactly the first. |
| `Rag.BuildContext` | rag_examples/base_rag.py:83-86 | The accumulating loop produces the in-order concatenation of the page contents, with no separator; no documents gives `""`. |
| `Rag.JoinAppend` | rag_examples/base_rag.py:85-86 | The context of two runs of documents is the context of the first followed by that of the second. |
| `Rag.JoinPlacesEach` | rag_examples/base_rag.py:83-86 | Each document's content appears whole in the context, right after the contents of the documents before it. |
| `Rag.PromptRoundTrip` | rag_examples/base_rag.py:88-93 | The prompt is the instruction line, then the context, then "Question: {query}", ending with "Answer:". Context and query read back from it. |
| `Rag.ExtractStrict` | rag_examples/base_rag.py:70 | Succeeds if and only if `output.message.content` is a non-empty list whose first element has `text`, and returns that value. A missing key raises KeyError and an empty content raises IndexError. |
| `Rag.ReadUsage` | rag_examples/base_rag.py:64-68 | The logging reads succeed if and only if `usage.inputTokens`, `usage.outputTokens`, `usage.totalTokens` and `stopReason` are all present. |
| `Rag.GenerateConversation` | rag_examples/base_rag.py:43-72 | Call errors propagate. A response lacking any usage counter or `stopReason` raises before extraction. Otherwise the result is the strict extraction. |
| `Rag.WellFormedReply` | rag_examples/base_rag.py:55-72 | A well-formed reply, with usage counters and stop reason, yields its first content text. |
| `Rag.StrictAgreesWithLenient` | rag_examples/base_rag.py:70 | Wherever the strict extraction succeeds, the lenient one of the text examples returns the same value. |
| `Rag.RagWithBedrock` | rag_examples/base_rag.py:82-106 | The retrieved pages, joined in order, and the query fill the prompt template. The prompt is the single user message, with one system prompt, sent through `generate_conversation` to the given model. |
| `Rag.RequestShape` | rag_examples/base_rag.py:88-103 | That request is a single turn whose one user text is the prompt; context and query read back from it. |
| `BaseRag.RagWithBedrock` | rag_examples/base_rag.py:95-106 | The shared construction, sent to "us.amazon.nova-lite-v1:0" with system prompt "You are a helpful AI". |
| `BaseRag.RequestShape` | rag_examples/base_rag.py:95-103 | That request is a single turn to nova-lite whose one user text is the prompt; context and query read back from it. |
| `ChatWithPdf.RagWithBedrock` | rag_examples/chat_with_pdf.py:104-120 | The shared construction, sent to "us.amazon.nova-pro-v1:0" with the Solutions-Architect system prompt. |
| `ChatWithPdf.RequestShape` | rag_examples/chat_with_pdf.py:104-116 | That request is a single turn to nova-pro whose one user text is the prompt; context and query read back from it. |

## Behaviour worth noting

- `generate_conversation` in `text_examples/gen_text.py:45-87` does not
  validate the model identifier. Each task validates its own fixed identifier
  before building the request (`text_examples/gen_text.py:102-103`, `:128-129`,
  `:155-156`).
- Nothing checks the similarity strength, the image dimensions or the cfg
  scale. The 0.2–1.0 range of the similarity strength appears only in the
  docstring of `nova_update_image` (`image_examples/image_to_image_st.py:59`)
  and in the UI slider (`image_examples/image_to_image_st.py:138-145`). Neither
  is a check. The sizes and cfg scale are fixed constants in the payloads.
- `generate_image_nova` (`image_examples/image_gen_st.py:18-54`) has no error
  handling: every failure propagates.
- `call_claude_sonnet` maps a reply `{"content": []}` to "Error generating
  description", not to the "No description available" default
  (`image_examples/image_understanding_st.py:60`, `:65-67`). The empty list
  raises IndexError, and the catch-all handler maps it to the error string.

## Left out

- Network calls and boto3 client set-up, including `st.cache_resource`: the
  runtime is a function parameter, so the model does not say what it answers.
- Streamlit widgets, layout, spinners, download buttons and error messages: UI.
  The model keeps only the decision outcomes: the `Rejection` kind of an
  upload, the prompt warning, and whether a description is requested.
- PIL decoding and saving, and base64 encoding and decoding: foreign
  libraries, modelled as parameters. The base64 round trip is therefore not
  proved.
- `json.dumps` and `json.loads`: request bodies are kept as values, and a
  decoding failure is one of the errors the endpoint parameter can return.
- FAISS, the embeddings, `similarity_search`, `UnstructuredLoader` and the text
  splitter: foreign libraries. The retrieved documents are an input sequence.
- The local index load/save branch (`rag_examples/chat_with_pdf.py:80-89`):
  file-system I/O.
- Floating-point values are `real` literals that are only passed through.
- `print` logging, `time.sleep` and the `main` demo loops: side effects only.
- Strings.Upper: upper-cases ASCII letters only, where Python's `str.upper`
  is Unicode-wide. The formats PIL reports are ASCII.
- ImageToImage.ImageToBase64: a file that exists but cannot be read is not
  modelled. The file system is a map from existing paths to their encodings.
- The lenient `GenText.GenerateConversation` reads the three usage counters and
  the stop reason with defaults. Once `usage` has been read, only the first
  counter read can raise, so the model performs that read alone.
