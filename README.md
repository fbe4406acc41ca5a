# Embeddings service: a Dafny model

This project models the core of an HTTP service that turns texts and images into
embedding vectors. The core has six parts:

- **Embedders.** An abstract `BaseEmbedder` has three subclasses: `TextEmbedder`,
  `ImageEmbedder` and `MultimodalEmbedder`. Constructing one loads its model, and the
  load fixes the output width (`dimension`). `get_embedding` guards against a model
  that is not loaded. For images it dispatches on the source, which is a URL string or
  raw bytes.
- **The lazy model registry.** `REGISTERED_MODELS` maps API names to embedder classes.
  `LOADED_MODELS` caches the instances built so far. The registry functions are
  `get_embedder_instance`, `get_available_models_info` (with a fallback entry for a
  model that cannot be built) and `preload_models`.
- **The text and image routes.** Each builds one embedder when its module is imported
  (or None when that construction raises). Each maps `ValueError` to 400,
  `RuntimeError` to 503 and any other exception to 500.
- **The model listing route.** It lists one entry per module-level instance that
  exists.
- **The multimodal route.** Exactly one of a text, an image URL or an image file must
  be provided. The route chooses which input reaches the model and how each failure
  becomes an HTTP status.
- **API-key parsing.** The `VALID_API_KEYS` environment variable is split on commas
  and whitespace, with a development fallback key. `get_api_key` checks the
  `X-API-KEY` header against that list.

## The model's structure

- **Python exceptions** are values: `Common.Exc` holds an exception class and its
  message. A call that may raise returns a `Result`, and a statement that may raise
  yields an `Outcome`.
- **Foreign libraries** are one value, `Embedders.Foreign`. It records what each call
  into `sentence_transformers`, `transformers`, `torch`, `requests` or PIL returns or
  raises. The model is therefore proved for whatever those libraries do.
- **`Embedders.Embedder`** is a class whose fields are the instance attributes:
  `model_name`, `model_type`, `model_cache_dir`, `device`, `model`, `processor` and
  `_dimension`.
  - Every method that assigns attributes is proved to end in the state that a pure
    function on a `Fields` snapshot describes.
  - The lemmas reason about those functions.
  - A ghost counter records how many times `_load_model` ran.
- **`Registry.ModelRegistry`** is a class whose field `loaded` is `LOADED_MODELS`. A
  ghost log records every constructor call the registry makes.
- **Each route** is a function of the module-level instance it was given (or None),
  the request and the foreign libraries. That instance is `Embedders.ModuleInstance`
  of the import-time construction: the text and image modules also read `dimension`
  in their success log line, and a raising read leaves the module with None.
- **The registry's imports.** app/__init__.py imports `.base_embedder`,
  `.text_embedder` and `.image_embedder` relative to its own package, and those modules
  live in app/models. The model reads the registry as the package `app.models`, where
  those imports resolve, so `str(klass)` is `<class 'app.models.text_embedder.TextEmbedder'>`
  and so on (`Embedders.ClassRepr`).

Construction is modelled twice: as written, and corrected (see "## Findings").

- **As written:** every subclass passes `model_cache_dir` to a base constructor that
  has no such parameter, so every construction raises `TypeError`. Consequently every
  route module holds None. The lemmas named `AsWritten…` state what the routes then
  answer.
- **Corrected:** the base constructor takes `model_cache_dir`, and each subclass sets
  its own attributes before the load instead of resetting them afterwards. The
  registry builds its instances with the corrected constructor. The `Fixed…` lemmas
  state what the routes answer on corrected instances.

## Model

| member | source | states |
|---|---|---|
| Schemas.MapStandardError | app/api/v1/text.py:53-67 | `ValueError` becomes 400 with its message, `RuntimeError` becomes 503 with its message, any other exception becomes 500 with the handler's fixed detail; the result is always an HTTP error |
| Auth.ReplaceCommas | app/auth.py:16 | same length as the input; each comma becomes a space and every other character is kept |
| Auth.Word | app/auth.py:16 | the longest whitespace-free prefix of the string: a prefix, without whitespace, followed by whitespace or the end |
| Auth.Split | app/auth.py:16 | every token of `split()` is non-empty and holds no whitespace |
| Auth.ValidApiKeys | app/auth.py:14-21 | the key list is never empty; every key is non-empty with no comma or whitespace; the list is either the fallback key alone or exactly the tokens of the comma-replaced variable |
| Auth.FallbackKeyWellFormed | app/auth.py:21 | the fallback key is non-empty and holds no comma or whitespace |
| Auth.IsWhitespace | app/auth.py:16 | the characters Python's `str.isspace` accepts, which an argument-less `split()` and `strip()` treat as separators |
| Auth.StripLeading | app/auth.py:16 | removes exactly the leading whitespace: what is dropped is whitespace, and what remains is a suffix that does not start with whitespace |
| Auth.StripTrailing | app/auth.py:16 | removes exactly the trailing whitespace: what is dropped is whitespace, and what remains is a prefix that does not end with whitespace |
| Auth.Strip | app/auth.py:16 | `strip()`: never longer than its input, and a non-empty result neither starts nor ends with whitespace |
| Auth.KeepStripped | app/auth.py:15-17 | the comprehension `[key.strip() for key in … if key.strip()]`: at most one key per token, none empty, none starting or ending with whitespace |
| Auth.ParseApiKeys | app/auth.py:14-17 | the list built from the raw variable: no key is empty, starts with whitespace or ends with whitespace |
| Auth.GetApiKey | app/auth.py:24-28 | accepts exactly the keys in the list and returns the header value itself; any other value is rejected with 403 "Could not validate credentials" |
| Auth.StripWithoutWhitespace | app/auth.py:16 | `strip()` leaves a string without whitespace unchanged |
| Auth.KeepStrippedOfTokens | app/auth.py:15-17 | after `split()`, the comprehension's `strip()` and its emptiness filter change nothing |
| Auth.SplitKeepsOutComma | app/auth.py:16 | when the input has no comma, no token of `split()` has one |
| Auth.ParsedKeysAreTokens | app/auth.py:15-17 | the parsed keys are exactly the `split()` tokens of the comma-replaced string, and every key is non-empty with no comma or whitespace |
| Auth.SplitPreservesOrder | app/auth.py:16 | the tokens, read back to back, are the input with its whitespace removed: nothing is lost and nothing is reordered |
| Auth.RemoveWhitespaceOfReplaced | app/auth.py:16 | removing whitespace after replacing commas is the same as removing every separator |
| Auth.KeysKeepRawOrder | app/auth.py:14-17 | the parsed keys, read back to back, are the raw variable with every comma and whitespace character removed |
| Auth.SplitJoined | app/auth.py:16 | splitting well-formed keys joined by single spaces gives the same list back |
| Auth.ReplaceCommasJoined | app/auth.py:16 | replacing commas in a comma-joined list of separator-free keys gives the same list joined by spaces |
| Auth.ParseJoinedKeys | app/auth.py:14-17 | round trip: any list of well-formed keys, written comma-separated, is parsed back to the same list in the same order |
| Auth.FallbackExactlyWhenBlank | app/auth.py:19-21 | the key list is the fallback alone exactly when the parsed list is empty or is that very key; the parsed list is empty exactly when the variable holds only commas and whitespace (or is unset) |
| Embedders.UnexpectedKeyword | app/models/base_embedder.py:7 | None exactly when every keyword is `model_name` or `model_type`; otherwise it is a keyword the call really passes that is neither of them |
| Embedders.KeywordValue | app/models/base_embedder.py:7 | defined exactly when the call passes the keyword, and then equal to a value passed under it |
| Embedders.BindBaseArguments | app/models/base_embedder.py:7 | the base constructor's signature accepts a call exactly when there is no unexpected keyword and both parameters are given, and it then binds their values; an unexpected keyword raises `TypeError` naming that keyword; every failure is a `TypeError` |
| Embedders.SuperKwargs | app/models/text_embedder.py:16-18 | the keywords each subclass passes to `super().__init__`: `model_name`, its own `model_type` and `model_cache_dir` |
| Embedders.ClassDescription | app/models/text_embedder.py:9 | the class attribute `description` of each of the three classes |
| Embedders.ModelTypeName | app/models/image_embedder.py:16 | the `model_type` each subclass hands to the base constructor: "text", "image" or "multimodal" |
| Embedders.DefaultModelName | app/models/multimodal_embedder.py:12 | the default `model_name` of each subclass constructor |
| Embedders.ClassRepr | app/__init__.py:96-97 | `str(klass)` for each class, `<class 'app.models.<module>.<Class>'>` |
| Embedders.AfterTextLoad | app/models/text_embedder.py:21-35 | without a cache directory, raises `AttributeError` before the `try` and changes nothing; only `model` and `_dimension` change; it completes exactly when the library loads the model and encodes the probe "test", and then stores that model and the probe's width; a failure leaves `model = None` |
| Embedders.AfterImageLoad | app/models/image_embedder.py:20-41 | without a cache directory, raises `AttributeError` and changes nothing; only `model`, `processor` and `_dimension` change; it completes exactly when the processor and the model load (on the instance's device) and the width is known from `hidden_size` or from the probe run, and then stores all three; a failure clears both `model` and `processor` |
| Embedders.AfterMultimodalLoad | app/models/multimodal_embedder.py:16-30 | without a cache directory, raises `AttributeError` and changes nothing; only `model` and `_dimension` change; it completes exactly when the model loads and `get_sentence_embedding_dimension` answers, and then stores that model and that width; a failure leaves `model = None` |
| Embedders.AfterLoad | app/models/base_embedder.py:11 | `self._load_model()` on any class: never changes `model_name`, `model_type`, `model_cache_dir` or `device`; without a cache directory it raises and changes nothing; otherwise a failure leaves no model (and no processor for images) and a success leaves both set |
| Embedders.AfterBaseInit | app/models/base_embedder.py:7-11 | a binding error raises before any assignment; a bound call sets `model_name` and `model_type`, which survive the load; since nothing stores `model_cache_dir`, a bound call on a fresh instance fails in the load with `AttributeError` |
| Embedders.ResetAfterBase | app/models/text_embedder.py:19 | the subclass's assignments after `super().__init__`: `_dimension` becomes 0 and, for the image embedder, `processor` becomes None; nothing else changes |
| Embedders.AfterInit | app/models/image_embedder.py:14-18 | a subclass constructor as written: raises exactly what the base constructor raises; the image embedder's `device` is set first; a constructor that returns always leaves `_dimension` 0, and for images no processor |
| Embedders.AfterBaseInitFixed | app/models/base_embedder.py:7-11 | corrected base constructor: sets `model_name`, `model_type` and the cache directory; a failure leaves no model (and for images no processor), a success leaves both set |
| Embedders.AfterInitFixed | app/models/image_embedder.py:14-18 | corrected subclass constructor: the name, the class's type and the cache directory are set, and the image embedder's device; a failure leaves no model, a success leaves a model (and for images a processor) |
| Embedders.ImportTimeRead | app/api/v1/text.py:16-18 | the `.dimension` read of a route module's import-time log line, through each class's property |
| Embedders.ModuleInstance | app/api/v1/image.py:15-28 | a route module's import-time `try`: None when the construction raises, or when the log line reads `dimension` and that read raises; otherwise the constructed instance, including the read's cache write |
| Embedders.DefaultInstance | app/api/v1/text.py:14-21 | the module-level instance as written: it exists only if construction with the default arguments completed |
| Embedders.DefaultInstanceFixed | app/api/v1/models.py:17-49 | the module-level instance with the corrected constructor: it exists only if construction completed, and then holds a loaded model (and for images a processor) under the default name and the class's type |
| Embedders.Embedder.constructor | app/models/base_embedder.py:4 | allocation of an instance of one of the classes, before `__init__` runs: no attribute is set yet and no load has run |
| Embedders.GetModelInfo | app/models/base_embedder.py:23-28 | reports the instance's `model_name` and `model_type`, and the class `description`, or "N/A" when the class has none |
| Embedders.TextGetEmbedding | app/models/text_embedder.py:37-41 | an unloaded model raises `RuntimeError` "Text model … is not loaded properly."; a loaded one answers exactly what `encode` answers |
| Embedders.TextDimension | app/models/text_embedder.py:43-50 | answers the stored width exactly when a model is loaded; otherwise raises `RuntimeError` "… dimension unknown." |
| Embedders.ImageBytesFromSource | app/models/image_embedder.py:47-58 | bytes are used as given; a URL is downloaded with a 10-second timeout; a download `RequestException` becomes `ValueError` and any other download error passes through; any other source type raises `TypeError` |
| Embedders.DecodeImage | app/models/image_embedder.py:60-63 | succeeds exactly when PIL opens the bytes, with PIL's image; every failure becomes `ValueError` |
| Embedders.ImageGetEmbedding | app/models/image_embedder.py:43-72 | a missing model or processor raises `RuntimeError`; an unsupported source raises `TypeError`; bytes are decoded and run through the model; a URL is downloaded (its errors as `ImageBytesFromSource` gives them), then decoded and run through the same forward pass; success implies the source yielded bytes that decode |
| Embedders.ImageDimensionRead | app/models/image_embedder.py:74-83 | a non-zero width is answered unchanged; a zero width is replaced by `hidden_size` when the model has one and cached; otherwise it raises one of the two `RuntimeError`s, depending on whether a model is loaded |
| Embedders.MultimodalGetEmbedding | app/models/multimodal_embedder.py:32-38 | an unloaded model raises `RuntimeError`; a loaded one passes the input to `encode` unchanged |
| Embedders.MultimodalDimensionRead | app/models/multimodal_embedder.py:40-46 | an unloaded model raises `RuntimeError`; a non-zero width is answered; a zero width is resolved again through `get_sentence_embedding_dimension` and cached, and an exception from that call propagates |
| Embedders.LoadImageFromSource | app/models/multimodal_embedder.py:49-67 | bytes are decoded; a URL is downloaded and then decoded, and a `RequestException` becomes `ValueError`; any other source type raises `TypeError` |
| Embedders.Embedder.TextLoadModel | app/models/text_embedder.py:21-35 | the attributes after the load are those of the load's specification: it raises `AttributeError` when `model_cache_dir` was never set; on failure it leaves `model = None` and re-raises; on success it stores the model and the width of the "test" probe encoding |
| Embedders.Embedder.ImageLoadModel | app/models/image_embedder.py:20-41 | the attributes after the load follow its specification: the processor, then the model on the device, then the width from `hidden_size` or from a probe image; any failure clears both `model` and `processor` and re-raises |
| Embedders.Embedder.MultimodalLoadModel | app/models/multimodal_embedder.py:16-30 | the attributes after the load follow its specification: the model, then the width from `get_sentence_embedding_dimension`; a failure clears `model` and re-raises |
| Embedders.Embedder.LoadModel | app/models/base_embedder.py:11 | `_load_model` dispatches on the instance's class, and each run is counted once |
| Embedders.Embedder.BaseInit | app/models/base_embedder.py:7-11 | argument binding first, and any `TypeError` from it raises before any attribute is set; then `model_name`, `model_type` and `model = None`, then exactly one load |
| Embedders.Embedder.Init | app/models/text_embedder.py:11-19 | a subclass constructor as written: `device` first (image only), then the base constructor, then `_dimension = 0` (and `processor = None` for images) once it returns; loads run exactly when the base call binds |
| Embedders.Embedder.BaseInitFixed | app/models/base_embedder.py:7-11 | the corrected base constructor also stores `model_cache_dir` before its single load |
| Embedders.Embedder.InitFixed | app/models/image_embedder.py:14-18 | the corrected subclass constructor: its own attributes first, then the corrected base constructor, loading exactly once |
| Embedders.Embedder.ImageDimension | app/models/image_embedder.py:74-83 | reading the property answers, and leaves the attributes, as `ImageDimensionRead` describes |
| Embedders.Embedder.MultimodalDimension | app/models/multimodal_embedder.py:40-46 | reading the property answers, and leaves the attributes, as `MultimodalDimensionRead` describes |
| Embedders.SuperCallRejected | app/models/text_embedder.py:16-18 | every subclass's `super().__init__` call raises `TypeError` over the unexpected keyword `model_cache_dir` |
| Embedders.ConstructionAlwaysFails | app/models/image_embedder.py:14-18 | as written, constructing any embedder raises that `TypeError`; `_load_model` never runs, and the only attribute ever set is the image embedder's `device` |
| Embedders.DefaultInstanceAbsent | app/api/v1/text.py:14-21 | as written, a route module's import-time construction always fails, leaving None |
| Embedders.FixedBaseLoadsNamedModel | app/models/base_embedder.py:7-11 | corrected: the load asks the library for the model named by the constructor argument, from the given cache directory; `model_name` and `model_type` survive the load |
| Embedders.TextResetLosesProbeWidth | app/models/text_embedder.py:19 | as written, even if the base call were accepted, the reset after the load makes `dimension` 0 for a model whose probe width is positive |
| Embedders.FixedTextReportsProbeWidth | app/models/text_embedder.py:21-30 | corrected: a text embedder whose model loads reports the width of its probe encoding |
| Embedders.FixedTextEmbeddingMatchesDimension | app/models/text_embedder.py:37-50 | corrected: when the model's encodings all have one width, every text embedding is exactly `dimension` long |
| Embedders.ImageResetDisablesEmbedding | app/models/image_embedder.py:18 | as written, the `processor = None` after the load makes every `get_embedding` raise `RuntimeError`, whatever the source |
| Embedders.FixedImageEmbeds | app/models/image_embedder.py:43-72 | corrected: an image embedder whose processor and model load, and whose width comes from `hidden_size` or a successful probe run, keeps its processor; embedding bytes then decodes them and runs the model on the chosen device |
| Embedders.ImageDimensionIdempotent | app/models/image_embedder.py:74-83 | a successful read of the image `dimension` caches its answer: a second read answers the same and changes nothing |
| Embedders.MultimodalDimensionIdempotent | app/models/multimodal_embedder.py:40-46 | after a read that answers a non-zero width, the next read makes no library call, answers the same and changes nothing |
| Registry.RegisteredClass | app/__init__.py:10-15 | defined exactly for the registered names, and is the class registered under that name |
| Registry.RegisteredNamesDistinct | app/__init__.py:10-15 | no name is registered twice |
| Registry.GuessModelType | app/__init__.py:93-97 | a class attribute wins; otherwise "text" when the class's `str` contains "TextEmbedder", else "image" when it contains "ImageEmbedder", else "unknown" |
| Registry.FallbackModelTypes | app/__init__.py:93-97 | for the real classes, the guess agrees with `model_type` for the text and image embedders and gives "unknown" for the multimodal one |
| Registry.FallbackInfo | app/__init__.py:99-103 | the fallback entry carries the registered name and the guessed type; its description is "Error loading/initializing: " followed by the exception's message |
| Registry.LoadedInfo | app/__init__.py:88 | the entry of a built instance names its registry key, its class's `model_type` and its class description |
| Registry.Construction | app/__init__.py:39 | `EmbedderClass(model_name=name)` with the corrected constructor: the instance is named by the registry key, has its class's type and the default cache directory, and holds a model when construction completes |
| Registry.Builds | app/__init__.py:39 | the registry's constructor call for that name completes without raising |
| Registry.ConstructedInfo | app/__init__.py:39 | an instance the registry builds has the key as `model_name` and the class's type, so its `get_model_info` is the loaded entry for that key |
| Registry.Construct | app/__init__.py:31-39 | `EmbedderClass(model_name=name)`: returns a fresh instance of the class, in the constructed state with that name, exactly when the constructor completes; otherwise its exception |
| Registry.ListedInfo | app/__init__.py:84-103 | a registered name is listed with its loaded entry when it was cached or its construction succeeds, and otherwise with the fallback entry carrying the constructor's exception |
| Registry.ModelRegistry.constructor | app/__init__.py:19 | at import nothing is cached and nothing has been constructed |
| Registry.ModelRegistry.GetEmbedderInstance | app/__init__.py:21-41 | an unregistered name raises `ValueError` "Model '…' is not registered." and changes nothing; a cached name returns the cached instance and builds nothing; otherwise exactly one construction is made; a successful one is cached under the name and returned, and a failure propagates with nothing cached; no other name's entry changes; every instance returned is the one cached under the name |
| Registry.ModelRegistry.GetAvailableModelsInfo | app/__init__.py:65-106 | one entry per registered name, in registration order, each the loaded entry or the fallback entry as `ListedInfo` states; afterwards a registered name is cached exactly when it was cached before or its construction succeeds; cached instances stay cached and no unregistered name appears |
| Registry.ModelRegistry.PreloadModels | app/__init__.py:110-117 | afterwards a registered name is cached exactly when it was cached before or its construction succeeds; failures are swallowed; no earlier instance is replaced and no unregistered name appears |
| TextRoute.EmbedText | app/api/v1/text.py:45-52 | the response exists exactly when the embedding and the `dimension` read both succeed; it carries the embedding, the instance's name and its width; an embedding error propagates |
| TextRoute.CreateTextEmbedding | app/api/v1/text.py:24-67 | no instance gives 503 "Text embedding model is not available."; a success carries what the loaded model encodes for the text, the instance's name and its width |
| TextRoute.RequestedModelIgnored | app/api/v1/text.py:38-43 | the request's `model_name` never changes the response |
| TextRoute.TextFailureStatuses | app/api/v1/text.py:53-67 | with an instance: an unloaded model answers 503 with the guard's message; an `encode` error answers 400, 503 or 500 by its class; an `encode` that succeeds answers 200 |
| TextRoute.AsWrittenAlwaysUnavailable | app/api/v1/text.py:14-36 | as written, the endpoint answers 503 to every request |
| TextRoute.FixedServesProbeWidth | app/api/v1/text.py:45-52 | with the corrected constructor, the default model serves the text's encoding with `dim` equal to the probe width |
| ImageRoute.EmbedImage | app/api/v1/image.py:65-70 | the response exists exactly when the embedding and the `dimension` read both succeed, and it carries their values |
| ImageRoute.UploadAttempt | app/api/v1/image.py:58-70 | empty contents raise `HTTPException(400)` "No image file content provided." inside the `try`; other contents go to `get_embedding` |
| ImageRoute.CreateImageEmbeddingUpload | app/api/v1/image.py:31-88 | no instance gives 503; for a non-empty upload, the answer is a success exactly when `get_embedding` on the bytes and the `dimension` read both succeed, and the body then carries that embedding, the instance's name and that width (`dim`) |
| ImageRoute.CreateImageEmbeddingUploadFixed | app/api/v1/image.py:58-85 | corrected upload handler: no instance gives 503; an HTTPException raised inside the `try` is answered with its own status and detail; in every other case the answer is the as-written handler's; a success carries the embedding of the bytes, the instance's name and the `dimension` read |
| ImageRoute.CreateImageEmbeddingUrl | app/api/v1/image.py:91-136 | no instance gives 503; otherwise the answer is a success exactly when `get_embedding` on the URL string and the `dimension` read both succeed, and the body then carries that embedding, the instance's name and that width (`dim`) |
| ImageRoute.RequestedModelIgnored | app/api/v1/image.py:51-56 | neither endpoint's response depends on the requested model name |
| ImageRoute.EmptyUploadBecomesInternalError | app/api/v1/image.py:59-85 | as written, an empty upload is answered 500 "Internal server error while processing image upload." |
| ImageRoute.FixedUploadRejectsEmpty | app/api/v1/image.py:59-63 | corrected, an empty upload is answered 400 "No image file content provided." |
| ImageRoute.FixedUploadAgreesOnContent | app/api/v1/image.py:65-85 | the correction changes no answer for a non-empty upload, as long as the model's forward pass raises no HTTPException itself |
| ImageRoute.ImageSourceErrorsAreNotHttp | app/models/image_embedder.py:43-72 | embedding bytes raises no HTTPException unless the forward pass does |
| ImageRoute.UrlFailureStatuses | app/api/v1/image.py:116-136 | each failure's status: no model or processor gives 503 with the guard's message; a download `RequestException` gives 400 "Could not download image from URL: …"; any other download error, and a forward-pass error, is answered by its class (400 for `ValueError`, 503 for `RuntimeError`, otherwise 500); bytes PIL cannot open give 400 "Could not open image. Error: …"; a raising `dimension` read gives 503 with its message |
| ImageRoute.ImageUrlEmbedded | app/api/v1/image.py:116-122 | a URL that downloads and decodes is answered with the forward pass's embedding of the decoded image, the instance's name and the `dimension` read |
| ImageRoute.UploadFailureStatuses | app/api/v1/image.py:65-85 | for a non-empty upload: no model or processor gives 503 with the guard's message; bytes PIL cannot open give 400 "Could not open image. Error: …"; a forward-pass error is answered by its class (400 for `ValueError`, 503 for `RuntimeError`, otherwise 500 "Internal server error while processing image upload."); a raising `dimension` read gives 503 with its message |
| ImageRoute.AsWrittenAlwaysUnavailable | app/api/v1/image.py:15-49 | as written, both image endpoints answer 503 to every request |
| ModelsRoute.SlotEntry | app/api/v1/models.py:59-66 | a slot contributes one entry exactly when its instance exists: the instance's name, the slot's fixed type and the class description |
| ModelsRoute.Listing | app/api/v1/models.py:57-100 | the listing as one value: the text, image and multimodal slots' entries in that order |
| ModelsRoute.ListAvailableModels | app/api/v1/models.py:52-100 | the response lists the slots' entries in slot order, and an empty listing is returned normally |
| ModelsRoute.RankOfSlotType | app/api/v1/models.py:63-85 | the three slot types are distinct and occur in the order text, image, multimodal |
| ModelsRoute.ListingSize | app/api/v1/models.py:57-100 | one entry per existing instance, so at most three; the listing is empty exactly when no instance exists |
| ModelsRoute.ListingRanks | app/api/v1/models.py:59-92 | each entry's type is fixed by how many slots before it have an instance |
| ModelsRoute.ListingOrdered | app/api/v1/models.py:59-92 | entries come strictly in the order text, image, multimodal |
| ModelsRoute.ListingPositions | app/api/v1/models.py:59-92 | each existing instance's entry sits right after those of the earlier slots and carries its name, its slot's type and its class description |
| ModelsRoute.ListingDescriptions | app/api/v1/models.py:64 | no entry's description falls back to "N/A" |
| ModelsRoute.AsWrittenListingEmpty | app/api/v1/models.py:17-49 | as written, no instance exists and the listing is empty |
| MultimodalRoute.Provided | app/api/v1/multimodal.py:52-53 | a form field counts as provided when it is present and not the empty string |
| MultimodalRoute.ProvidedCount | app/api/v1/multimodal.py:52-58 | counts the provided inputs, at most three: a field counts when present and non-empty, and a file whenever one is sent; none and exactly one are characterised both ways |
| MultimodalRoute.IsImageContentType | app/api/v1/multimodal.py:88-90 | an upload is accepted as an image when its `content_type` is set and starts with "image/" |
| MultimodalRoute.SelectInput | app/api/v1/multimodal.py:66-107 | a text is passed on unchanged; a URL that `HttpUrl` rejects gives 400 "Invalid URL format…", and an accepted one is loaded in its normalised form; a file without an "image/" content type gives 400 "Invalid image file type: …", and an image file's bytes are decoded |
| MultimodalRoute.EmbedInput | app/api/v1/multimodal.py:109-121 | the response exists exactly when selection, embedding and the `dimension` read all succeed, and it carries their values; a selection error propagates unchanged |
| MultimodalRoute.MapMultimodalError | app/api/v1/multimodal.py:123-150 | `ValueError` becomes 400 with its message; `RuntimeError` becomes 503 "Model runtime error: …"; an HTTPException passes through with its status and detail; anything else becomes 500 "An unexpected error occurred: …" |
| MultimodalRoute.GetMultimodalEmbedding | app/api/v1/multimodal.py:32-150 | no instance gives 503; zero or several inputs give 400 "Please provide exactly one of…"; with exactly one input the answer is the `try` body's response or its error mapped by the `except` chain; a success carries the model's encoding of the selected input, the instance's name and its resolved width |
| MultimodalRoute.TextPassedUnchanged | app/api/v1/multimodal.py:69-70 | a text alone is answered with what the model encodes for exactly that text |
| MultimodalRoute.ImageUrlEmbedded | app/api/v1/multimodal.py:72-86 | a URL alone that `HttpUrl` accepts is downloaded in its normalised form and decoded, and the answer carries what the model encodes for that image |
| MultimodalRoute.ImageFileEmbedded | app/api/v1/multimodal.py:87-99 | an image file alone is decoded from its bytes, and the answer carries what the model encodes for that image |
| MultimodalRoute.TextFailureStatuses | app/api/v1/multimodal.py:109-131 | a text alone on an unloaded model is answered 503 "Model runtime error: Multimodal model … is not loaded properly."; a failing `encode` is answered as the `except` chain maps its error |
| MultimodalRoute.UndecodableFileRejected | app/api/v1/multimodal.py:96-125 | an image file alone whose bytes PIL cannot open is answered 400 "Could not open image. Error: …" |
| MultimodalRoute.MalformedUrlRejected | app/api/v1/multimodal.py:73-80 | a URL alone that `HttpUrl` rejects is answered 400 with the offending URL, independent of the network and the model |
| MultimodalRoute.NonImageFileRejected | app/api/v1/multimodal.py:88-95 | a file alone without an image content type is answered 400 naming that content type, independent of its bytes |
| MultimodalRoute.EmptyFieldsIgnored | app/api/v1/multimodal.py:52-53 | empty form fields do not count: only empty fields give the "exactly one" error, and an empty field beside a text changes nothing |
| MultimodalRoute.AsWrittenAlwaysUnavailable | app/api/v1/multimodal.py:19-50 | as written, the endpoint answers 503 to every request |

## Left out

- Model computations. The numeric work of the machine-learning libraries is left
  out: tokenisation, forward passes, `last_hidden_state.mean(dim=1)` pooling,
  `squeeze`, and float values. Each is a field of `Foreign`, and vectors are
  sequences of opaque reals.
- Devices and I/O are not modelled. This covers CUDA detection (the `cudaAvailable`
  flag), the network, the file-system cache and the image codecs. Each is a
  parameter of `Foreign`.
- Side effects without behaviour are not modelled: logging and the progress `print`
  calls.
- Async `UploadFile` handling is left out: `read`, `close` and the `finally` that
  closes the upload. The model takes the upload's bytes and declared content type as
  given.
- Concurrency is left out. Two requests racing on `LOADED_MODELS`, or on a lazily
  cached `_dimension`, are not modelled.
- `get_default_text_model_name` and `get_default_image_model_name`
  (app/__init__.py:43-63) are left out. Their guards never hold for the registered
  classes: `klass.mro()[1]` is `BaseEmbedder`, and `hasattr(klass, 'model_type')` is
  false because `model_type` is set only on instances (app/models/base_embedder.py:9).
  So the temporary instances at lines 53 and 61 are never built, and the two functions
  always return their fallbacks "all-MiniLM-L6-v2" and "ViT-B/32". The routes never
  call them.
- `main.py` (application assembly and router mounting) and `app/core/config.py` are
  not part of this model.
- Pydantic validation is left out.
  - The model assumes request bodies are already well typed.
  - The response schema is not checked, for example a `dim` that is not an int.
  - `HttpUrl` is a parameter `httpUrl` of the multimodal route: the normalised URL,
    or None when a URL is rejected.
- The `X-API-KEY` scheme itself (`APIKeyHeader` with `auto_error=True`) is left
  out: FastAPI rejects a missing or empty header before `get_api_key` runs.
  `Auth.GetApiKey` takes the header value as given.
- The message of an exception is a string field. Neither Python's `str(e)` nor the
  libraries' exact error texts are reproduced.
- A route's read of `dimension` can cache a width on its module-level instance. That
  write is not carried back: the routes take the instance's attributes as a value. By
  `Embedders.ImageDimensionIdempotent` and `Embedders.MultimodalDimensionIdempotent`,
  a later read answers the same.
- The registry builds its instances with the corrected constructor
  (`Embedders.Embedder.InitFixed`). With the constructor as written, every
  construction raises `TypeError`. `Registry.ModelRegistry` is stated for any
  constructor outcome through `Registry.Builds`, so that failing case is the one
  where `Builds` is false.
- Three class details are left out: Python's class-level `hasattr(klass,
  'model_type')` is `Embedders.ClassModelTypeAttribute`, which is None for all three
  classes; `str(klass)` is `Embedders.ClassRepr`; and `issubclass` and `mro()` are
  not modelled.
- The multimodal handler's final `else` branch ("No input provided…") cannot be
  reached after the count check. It is kept in `MultimodalRoute.SelectInput` but is
  not stated separately.
- Truthiness checks are taken as None checks: `if not multimodal_embedder` and
  `if text_embedder_instance`. None of the embedder classes defines `__bool__` or
  `__len__`.
- Images are opaque handles. `Image.new` for the probe image is part of
  `Foreign.probeWidth`.
- Embedders.Embedder.Init: its contract ties the state to `AfterInit` and counts
  the loads. It does not itself say that the call always raises; that is stated by
  `Embedders.ConstructionAlwaysFails` about `AfterInit`.
- The code and the tests disagree in two places, and the model follows the code:
  - A malformed `image_url` is answered 400 by the handler, while
    tests/test_api_multimodal.py:153-161 expects 422.
  - The multimodal success response passes `model_name` and `model_type`, which
    `EmbeddingResponse` does not declare. Pydantic drops them, so the response holds
    only `embedding`, `model_used` and `dim`, while tests/test_api_multimodal.py:43-47
    reads `model_name` and `model_type`.

## Findings

| source | as written | input that shows it | evidently intended | confidence | as-written member | corrected member |
|---|---|---|---|---|---|---|
| app/models/text_embedder.py:16-18 | every subclass calls `super().__init__(model_name=…, model_type=…, model_cache_dir=…)`, but `BaseEmbedder.__init__` (app/models/base_embedder.py:7) has no `model_cache_dir` parameter and nothing ever stores it, although every `_load_model` reads it | `TextEmbedder()` with its default arguments, or any construction of any of the three classes | the base constructor accepts and stores `model_cache_dir`, then loads the named model from it | not executed | Embedders.ConstructionAlwaysFails | Embedders.FixedBaseLoadsNamedModel |
| app/models/text_embedder.py:19 | `self._dimension = 0` runs after `super().__init__` has loaded the model and stored the probe width | a model whose probe encoding of "test" has 384 entries: `dimension` reports 0 | `dimension` is the probe width (384 for the default model, per tests/test_text_embedder.py:34-35) | not executed | Embedders.TextResetLosesProbeWidth | Embedders.FixedTextReportsProbeWidth |
| app/models/image_embedder.py:18 | `self.processor = None` runs after `super().__init__` has loaded the processor | any image model that loads, and any image bytes: `get_embedding` raises `RuntimeError` "not loaded properly" | the processor stays loaded (tests/test_image_embedder.py:37 expects it) and `get_embedding` runs the model | not executed | Embedders.ImageResetDisablesEmbedding | Embedders.FixedImageEmbeds |
| app/api/v1/image.py:60-63 | the `HTTPException(400)` for an empty upload is raised inside the `try`, and its `except Exception` clause (lines 77-85) turns it into 500 | an upload with empty contents | the client gets 400 "No image file content provided." | not executed | ImageRoute.EmptyUploadBecomesInternalError | ImageRoute.FixedUploadRejectsEmpty |
