/** The embedder objects: `BaseEmbedder` and its three subclasses `TextEmbedder`,
    `ImageEmbedder` and `MultimodalEmbedder`.

    One Dafny class `Embedder` stands for an instance of any of the three; its constant
    `cls` is the instance's Python class, and each method dispatches on it where Python
    dispatches on `type(self)`. The instance attributes are the class's fields.

    Each operation is a pure function on a snapshot of the attributes (`Fields`), which
    the lemmas reason about. Where the source assigns attributes, a method of `Embedder`
    also performs the assignments in the source's order, and is proved to end in the
    state that function describes.

    The machine-learning libraries, the network and PIL are `Foreign`: a value that says
    what each foreign call answers. */
module Embedders {
  import opened Common
  import opened Schemas

  datatype EmbedderClass = TextEmbedder | ImageEmbedder | MultimodalEmbedder

  function ClassName(c: EmbedderClass): string {
    match c
    case TextEmbedder => "TextEmbedder"
    case ImageEmbedder => "ImageEmbedder"
    case MultimodalEmbedder => "MultimodalEmbedder"
  }

  /** The module that defines each class. */
  function ModuleName(c: EmbedderClass): string {
    match c
    case TextEmbedder => "text_embedder"
    case ImageEmbedder => "image_embedder"
    case MultimodalEmbedder => "multimodal_embedder"
  }

  /** `str(cls)` */
  function ClassRepr(c: EmbedderClass): string {
    "<class 'app.models." + ModuleName(c) + "." + ClassName(c) + "'>"
  }

  /** `cls.model_type` when the class itself has that attribute. None of the three does:
      each sets `model_type` on the instance, through the base constructor. */
  function ClassModelTypeAttribute(c: EmbedderClass): Option<string> {
    None
  }

  /** The class attribute `description`. */
  function ClassDescription(c: EmbedderClass): Option<string> {
    match c
    case TextEmbedder => Some("Sentence Transformer model for text embeddings.")
    case ImageEmbedder => Some("Hugging Face ViT model for image embeddings.")
    case MultimodalEmbedder => Some("Sentence Transformer CLIP model for multimodal (text/image) embeddings.")
  }

  /** The `model_type` each subclass hands to the base constructor. */
  function ModelTypeName(c: EmbedderClass): string {
    match c
    case TextEmbedder => "text"
    case ImageEmbedder => "image"
    case MultimodalEmbedder => "multimodal"
  }

  /** The default `model_name` of each subclass constructor. */
  function DefaultModelName(c: EmbedderClass): string {
    match c
    case TextEmbedder => "all-MiniLM-L6-v2"
    case ImageEmbedder => "google/vit-base-patch16-224"
    case MultimodalEmbedder => "sentence-transformers/clip-ViT-B-32-multilingual-v1"
  }

  const DEFAULT_MODEL_CACHE_DIR := "./model_cache"

  /** The `timeout` of every `requests.get` for an image URL, in seconds. */
  const FETCH_TIMEOUT := 10

  /** The text the text embedder encodes once to measure its output width. */
  const PROBE_TEXT := "test"

  function UnexpectedKeywordMessage(k: string): string {
    "BaseEmbedder.__init__() got an unexpected keyword argument '" + k + "'"
  }

  const UNEXPECTED_CACHE_DIR := UnexpectedKeywordMessage("model_cache_dir")
  const IMAGE_SOURCE_TYPE_ERROR := "image_source must be bytes (file content) or str (URL)."

  /** A model handle of the libraries. Only its configuration's `hidden_size`, when the
      configuration has one, is visible to the service. */
  datatype Model = Model(handle: nat, hiddenSize: Option<int>)

  datatype Processor = Processor(handle: nat)

  /** What each foreign call answers: the value it returns or the exception it raises. */
  datatype Foreign = Foreign(
    /** `torch.cuda.is_available()` */
    cudaAvailable: bool,
    /** `SentenceTransformer(name, cache_folder=dir)` */
    sentenceTransformer: (string, string) -> Result<Model, Exc>,
    /** `model.encode(value).tolist()` */
    encode: (Model, Value) -> Result<Vector, Exc>,
    /** `model.get_sentence_embedding_dimension()` */
    sentenceEmbeddingDimension: Model -> Result<int, Exc>,
    /** `AutoImageProcessor.from_pretrained(name, cache_dir=dir)` */
    imageProcessor: (string, string) -> Result<Processor, Exc>,
    /** `AutoModel.from_pretrained(name, cache_dir=dir).to(device)` */
    autoModel: (string, string, string) -> Result<Model, Exc>,
    /** the last-axis width of `last_hidden_state` for one blank probe image */
    probeWidth: (Model, Processor, string) -> Result<int, Exc>,
    /** processor, model and mean pooling on one decoded image */
    imageForward: (Model, Processor, Image, string) -> Result<Vector, Exc>,
    /** `requests.get(url, timeout=t)`, `raise_for_status()` and `.content` */
    httpGet: (string, int) -> Result<seq<byte>, Exc>,
    /** `Image.open(BytesIO(b)).convert("RGB")` */
    openImage: seq<byte> -> Result<Image, Exc>)

  /** `"cuda" if torch.cuda.is_available() else "cpu"` */
  function DeviceName(lib: Foreign): string {
    if lib.cudaAvailable then "cuda" else "cpu"
  }

  /** The instance attributes. `modelCacheDir` is None while the attribute has never been
      assigned, since reading it then raises AttributeError. */
  datatype Fields = Fields(
    modelName: string,
    modelType: string,
    modelCacheDir: Option<string>,
    device: string,
    model: Option<Model>,
    processor: Option<Processor>,
    dimension: int)

  /** A freshly allocated instance, before `__init__` has run. */
  const BLANK := Fields("", "", None, "", None, None, 0)

  /** The attributes after a statement, and whether it completed or raised. */
  datatype Step = Step(fields: Fields, outcome: Outcome<Exc>)

  /** The attributes after reading a caching property, and what the read answered. */
  datatype Read = Read(fields: Fields, result: Result<int, Exc>)

  function NoAttribute(c: EmbedderClass, name: string): Exc {
    Exc(AttributeError, "'" + ClassName(c) + "' object has no attribute '" + name + "'")
  }

  // ---------------------------------------------------------------------------
  // The base constructor's argument binding

  /** The first keyword that `BaseEmbedder.__init__(self, model_name, model_type)` has no
      parameter for. */
  function UnexpectedKeyword(kwargs: seq<(string, string)>): (r: Option<string>)
    ensures r.None? <==> forall i :: 0 <= i < |kwargs| ==> kwargs[i].0 in {"model_name", "model_type"}
    ensures r.Some? ==> r.value !in {"model_name", "model_type"} && exists i :: 0 <= i < |kwargs| && kwargs[i].0 == r.value
  {
    if kwargs == [] then None
    else if kwargs[0].0 !in {"model_name", "model_type"} then Some(kwargs[0].0)
    else UnexpectedKeyword(kwargs[1..])
  }

  /** The value bound to keyword `k`, if the call passes it. */
  function KeywordValue(kwargs: seq<(string, string)>, k: string): (r: Option<string>)
    ensures r.Some? <==> exists i :: 0 <= i < |kwargs| && kwargs[i].0 == k
    ensures r.Some? ==> exists i :: 0 <= i < |kwargs| && kwargs[i] == (k, r.value)
  {
    if kwargs == [] then None
    else if kwargs[0].0 == k then Some(kwargs[0].1)
    else KeywordValue(kwargs[1..], k)
  }

  /** Python's binding of a keyword call to `BaseEmbedder.__init__(self, model_name,
      model_type)`: the two parameter values, or the TypeError the call raises. */
  function BindBaseArguments(kwargs: seq<(string, string)>): (r: Result<(string, string), Exc>)
    ensures r.Ok? <==>
      UnexpectedKeyword(kwargs).None? && KeywordValue(kwargs, "model_name").Some? && KeywordValue(kwargs, "model_type").Some?
    ensures r.Ok? ==> r.value == (KeywordValue(kwargs, "model_name").value, KeywordValue(kwargs, "model_type").value)
    ensures UnexpectedKeyword(kwargs).Some? ==> r == Err(Exc(TypeError, UnexpectedKeywordMessage(UnexpectedKeyword(kwargs).value)))
    ensures r.Err? ==> r.error.kind == TypeError
  {
    match UnexpectedKeyword(kwargs)
    case Some(k) => Err(Exc(TypeError, UnexpectedKeywordMessage(k)))
    case None =>
      match (KeywordValue(kwargs, "model_name"), KeywordValue(kwargs, "model_type"))
      case (Some(n), Some(t)) => Ok((n, t))
      case (None, Some(_)) =>
        Err(Exc(TypeError, "BaseEmbedder.__init__() missing 1 required positional argument: 'model_name'"))
      case (Some(_), None) =>
        Err(Exc(TypeError, "BaseEmbedder.__init__() missing 1 required positional argument: 'model_type'"))
      case (None, None) =>
        Err(Exc(TypeError, "BaseEmbedder.__init__() missing 2 required positional arguments: 'model_name' and 'model_type'"))
  }

  /** The keywords every subclass passes to `super().__init__`. */
  function SuperKwargs(c: EmbedderClass, name: string, cacheDir: string): seq<(string, string)> {
    [("model_name", name), ("model_type", ModelTypeName(c)), ("model_cache_dir", cacheDir)]
  }

  // ---------------------------------------------------------------------------
  // `_load_model` of each subclass

  /** `TextEmbedder._load_model`. Its progress message reads `self.model_cache_dir`
      before the `try`. */
  function AfterTextLoad(f: Fields, lib: Foreign): (r: Step)
    ensures f.modelCacheDir.None? ==> r == Step(f, Fail(NoAttribute(TextEmbedder, "model_cache_dir")))
    ensures r.fields == f.(model := r.fields.model, dimension := r.fields.dimension)
    ensures f.modelCacheDir.Some? && r.outcome.Fail? ==> r.fields.model.None? && r.fields.dimension == f.dimension
    ensures r.outcome.Pass? ==>
      && f.modelCacheDir.Some? && r.fields.model.Some?
      && lib.sentenceTransformer(f.modelName, f.modelCacheDir.value) == Ok(r.fields.model.value)
      && lib.encode(r.fields.model.value, Str(PROBE_TEXT)).Ok?
      && r.fields.dimension == |lib.encode(r.fields.model.value, Str(PROBE_TEXT)).value|
    ensures f.modelCacheDir.Some? && lib.sentenceTransformer(f.modelName, f.modelCacheDir.value).Ok? &&
            lib.encode(lib.sentenceTransformer(f.modelName, f.modelCacheDir.value).value, Str(PROBE_TEXT)).Ok? ==>
              r.outcome.Pass?
  {
    if f.modelCacheDir.None? then Step(f, Fail(NoAttribute(TextEmbedder, "model_cache_dir")))
    else
      match lib.sentenceTransformer(f.modelName, f.modelCacheDir.value)
      case Err(e) => Step(f.(model := None), Fail(e))
      case Ok(m) =>
        match lib.encode(m, Str(PROBE_TEXT))
        case Err(e) => Step(f.(model := None), Fail(e))
        case Ok(v) => Step(f.(model := Some(m), dimension := |v|), Pass)
  }

  /** `ImageEmbedder._load_model`: the width comes from `config.hidden_size` when the
      configuration has it, otherwise from one blank image run through the model. */
  function AfterImageLoad(f: Fields, lib: Foreign): (r: Step)
    ensures f.modelCacheDir.None? ==> r == Step(f, Fail(NoAttribute(ImageEmbedder, "model_cache_dir")))
    ensures r.fields == f.(model := r.fields.model, processor := r.fields.processor, dimension := r.fields.dimension)
    ensures f.modelCacheDir.Some? && r.outcome.Fail? ==>
      r.fields.model.None? && r.fields.processor.None? && r.fields.dimension == f.dimension
    ensures r.outcome.Pass? ==>
      && f.modelCacheDir.Some? && r.fields.model.Some? && r.fields.processor.Some?
      && lib.imageProcessor(f.modelName, f.modelCacheDir.value) == Ok(r.fields.processor.value)
      && lib.autoModel(f.modelName, f.modelCacheDir.value, f.device) == Ok(r.fields.model.value)
      && (r.fields.model.value.hiddenSize.Some? ==> r.fields.dimension == r.fields.model.value.hiddenSize.value)
      && (r.fields.model.value.hiddenSize.None? ==>
            lib.probeWidth(r.fields.model.value, r.fields.processor.value, f.device) == Ok(r.fields.dimension))
    ensures f.modelCacheDir.Some? && lib.imageProcessor(f.modelName, f.modelCacheDir.value).Ok? &&
            lib.autoModel(f.modelName, f.modelCacheDir.value, f.device).Ok? &&
            (var m := lib.autoModel(f.modelName, f.modelCacheDir.value, f.device).value;
             m.hiddenSize.Some? || lib.probeWidth(m, lib.imageProcessor(f.modelName, f.modelCacheDir.value).value, f.device).Ok?) ==>
              r.outcome.Pass?
  {
    if f.modelCacheDir.None? then Step(f, Fail(NoAttribute(ImageEmbedder, "model_cache_dir")))
    else
      var dir := f.modelCacheDir.value;
      var unloaded := f.(model := None, processor := None);
      match lib.imageProcessor(f.modelName, dir)
      case Err(e) => Step(unloaded, Fail(e))
      case Ok(p) =>
        match lib.autoModel(f.modelName, dir, f.device)
        case Err(e) => Step(unloaded, Fail(e))
        case Ok(m) =>
          match m.hiddenSize
          case Some(h) => Step(f.(processor := Some(p), model := Some(m), dimension := h), Pass)
          case None =>
            match lib.probeWidth(m, p, f.device)
            case Err(e) => Step(unloaded, Fail(e))
            case Ok(w) => Step(f.(processor := Some(p), model := Some(m), dimension := w), Pass)
  }

  /** `MultimodalEmbedder._load_model` */
  function AfterMultimodalLoad(f: Fields, lib: Foreign): (r: Step)
    ensures f.modelCacheDir.None? ==> r == Step(f, Fail(NoAttribute(MultimodalEmbedder, "model_cache_dir")))
    ensures r.fields == f.(model := r.fields.model, dimension := r.fields.dimension)
    ensures f.modelCacheDir.Some? && r.outcome.Fail? ==> r.fields.model.None? && r.fields.dimension == f.dimension
    ensures r.outcome.Pass? ==>
      && f.modelCacheDir.Some? && r.fields.model.Some?
      && lib.sentenceTransformer(f.modelName, f.modelCacheDir.value) == Ok(r.fields.model.value)
      && lib.sentenceEmbeddingDimension(r.fields.model.value) == Ok(r.fields.dimension)
    ensures f.modelCacheDir.Some? && lib.sentenceTransformer(f.modelName, f.modelCacheDir.value).Ok? &&
            lib.sentenceEmbeddingDimension(lib.sentenceTransformer(f.modelName, f.modelCacheDir.value).value).Ok? ==>
              r.outcome.Pass?
  {
    if f.modelCacheDir.None? then Step(f, Fail(NoAttribute(MultimodalEmbedder, "model_cache_dir")))
    else
      match lib.sentenceTransformer(f.modelName, f.modelCacheDir.value)
      case Err(e) => Step(f.(model := None), Fail(e))
      case Ok(m) =>
        match lib.sentenceEmbeddingDimension(m)
        case Err(e) => Step(f.(model := None), Fail(e))
        case Ok(d) => Step(f.(model := Some(m), dimension := d), Pass)
  }

  /** `self._load_model()`, dispatched on the instance's class. A load never touches
      `model_name`, `model_type`, the cache directory or the device. Without a cache
      directory it raises before its `try` and changes nothing; otherwise a load that
      raises leaves no model behind (and, for the image embedder, no processor) and one
      that completes leaves both set. */
  function AfterLoad(c: EmbedderClass, f: Fields, lib: Foreign): (r: Step)
    ensures var g := r.fields;
      g.modelName == f.modelName && g.modelType == f.modelType && g.modelCacheDir == f.modelCacheDir && g.device == f.device
    ensures f.modelCacheDir.None? ==> r == Step(f, Fail(NoAttribute(c, "model_cache_dir")))
    ensures f.modelCacheDir.Some? && r.outcome.Fail? ==> r.fields.model.None? && (c == ImageEmbedder ==> r.fields.processor.None?)
    ensures r.outcome.Pass? ==> r.fields.model.Some? && (c == ImageEmbedder ==> r.fields.processor.Some?)
  {
    match c
    case TextEmbedder => AfterTextLoad(f, lib)
    case ImageEmbedder => AfterImageLoad(f, lib)
    case MultimodalEmbedder => AfterMultimodalLoad(f, lib)
  }

  // ---------------------------------------------------------------------------
  // Construction, as written

  /** `BaseEmbedder.__init__`: bind the arguments, set `model_name`, `model_type` and
      `model = None`, then run `_load_model`, whose exception propagates. */
  function AfterBaseInit(c: EmbedderClass, f: Fields, kwargs: seq<(string, string)>, lib: Foreign): (r: Step)
    ensures BindBaseArguments(kwargs).Err? ==> r == Step(f, Fail(BindBaseArguments(kwargs).error))
    ensures BindBaseArguments(kwargs).Ok? ==>
      r.fields.modelName == BindBaseArguments(kwargs).value.0 && r.fields.modelType == BindBaseArguments(kwargs).value.1
    ensures BindBaseArguments(kwargs).Ok? && f.modelCacheDir.None? ==>
      r == Step(f.(modelName := BindBaseArguments(kwargs).value.0, modelType := BindBaseArguments(kwargs).value.1, model := None),
                Fail(NoAttribute(c, "model_cache_dir")))
  {
    match BindBaseArguments(kwargs)
    case Err(e) => Step(f, Fail(e))
    case Ok((name, modelType)) => AfterLoad(c, f.(modelName := name, modelType := modelType, model := None), lib)
  }

  /** The assignments each subclass makes after `super().__init__` has returned. */
  function ResetAfterBase(c: EmbedderClass, f: Fields): (g: Fields)
    ensures g.dimension == 0
    ensures g.processor == if c == ImageEmbedder then None else f.processor
    ensures g.(dimension := f.dimension, processor := f.processor) == f
  {
    if c == ImageEmbedder then f.(dimension := 0, processor := None) else f.(dimension := 0)
  }

  /** A subclass `__init__(model_name, model_cache_dir)`, as written. */
  function AfterInit(c: EmbedderClass, f: Fields, name: string, cacheDir: string, lib: Foreign): (r: Step)
    ensures r.outcome == AfterBaseInit(c, if c == ImageEmbedder then f.(device := DeviceName(lib)) else f, SuperKwargs(c, name, cacheDir), lib).outcome
    ensures c == ImageEmbedder ==> r.fields.device == DeviceName(lib)
    ensures r.outcome.Pass? ==> r.fields.dimension == 0 && (c == ImageEmbedder ==> r.fields.processor.None?)
  {
    var before := if c == ImageEmbedder then f.(device := DeviceName(lib)) else f;
    var s := AfterBaseInit(c, before, SuperKwargs(c, name, cacheDir), lib);
    if s.outcome.Fail? then s else Step(ResetAfterBase(c, s.fields), Pass)
  }

  // ---------------------------------------------------------------------------
  // Construction, corrected

  /** A base constructor that takes and stores the cache directory, which every
      `_load_model` reads. */
  function AfterBaseInitFixed(c: EmbedderClass, f: Fields, name: string, modelType: string, cacheDir: string, lib: Foreign): (r: Step)
    ensures r.fields.modelName == name && r.fields.modelType == modelType && r.fields.modelCacheDir == Some(cacheDir)
    ensures r.outcome.Fail? ==> r.fields.model.None? && (c == ImageEmbedder ==> r.fields.processor.None?)
    ensures r.outcome.Pass? ==> r.fields.model.Some? && (c == ImageEmbedder ==> r.fields.processor.Some?)
  {
    AfterLoad(c, f.(modelName := name, modelType := modelType, modelCacheDir := Some(cacheDir), model := None), lib)
  }

  /** A subclass `__init__` that initialises its own attributes before the base
      constructor loads the model, instead of resetting them afterwards. */
  function AfterInitFixed(c: EmbedderClass, f: Fields, name: string, cacheDir: string, lib: Foreign): (r: Step)
    ensures r.fields.modelName == name && r.fields.modelType == ModelTypeName(c) && r.fields.modelCacheDir == Some(cacheDir)
    ensures c == ImageEmbedder ==> r.fields.device == DeviceName(lib)
    ensures r.outcome.Fail? ==> r.fields.model.None? && (c == ImageEmbedder ==> r.fields.processor.None?)
    ensures r.outcome.Pass? ==> r.fields.model.Some? && (c == ImageEmbedder ==> r.fields.processor.Some?)
  {
    var before :=
      if c == ImageEmbedder then f.(device := DeviceName(lib), dimension := 0, processor := None)
      else f.(dimension := 0);
    AfterBaseInitFixed(c, before, name, ModelTypeName(c), cacheDir, lib)
  }

  /** The `.dimension` read in a route module's import-time log line. */
  function ImportTimeRead(c: EmbedderClass, f: Fields, lib: Foreign): Read {
    match c
    case TextEmbedder => Read(f, TextDimension(f))
    case ImageEmbedder => ImageDimensionRead(f)
    case MultimodalEmbedder => MultimodalDimensionRead(f, lib)
  }

  /** The module-level instance after the import-time `try` has run `s`: None when the
      construction raised, or when the success log line reads `dimension`
      (`logsDimension`) and that read raised; otherwise the constructed instance, with
      the read's cache write. */
  function ModuleInstance(c: EmbedderClass, s: Step, logsDimension: bool, lib: Foreign): (r: Option<Fields>)
    ensures s.outcome.Fail? ==> r.None?
    ensures !logsDimension ==> r == if s.outcome.Pass? then Some(s.fields) else None
    ensures logsDimension && s.outcome.Pass? ==>
      (r.Some? <==> ImportTimeRead(c, s.fields, lib).result.Ok?) &&
      (r.Some? ==> r.value == ImportTimeRead(c, s.fields, lib).fields)
  {
    if s.outcome.Fail? then None
    else if !logsDimension then Some(s.fields)
    else
      var rd := ImportTimeRead(c, s.fields, lib);
      if rd.result.Ok? then Some(rd.fields) else None
  }

  /** The module-level instance a route module builds at import with the default
      arguments, as written. */
  function DefaultInstance(c: EmbedderClass, logsDimension: bool, lib: Foreign): (r: Option<Fields>)
    ensures r.Some? ==> AfterInit(c, BLANK, DefaultModelName(c), DEFAULT_MODEL_CACHE_DIR, lib).outcome.Pass?
  {
    ModuleInstance(c, AfterInit(c, BLANK, DefaultModelName(c), DEFAULT_MODEL_CACHE_DIR, lib), logsDimension, lib)
  }

  /** The same, with the corrected constructor: an instance exists only when construction
      completed, and then it holds a loaded model under the default name. */
  function DefaultInstanceFixed(c: EmbedderClass, logsDimension: bool, lib: Foreign): (r: Option<Fields>)
    ensures r.Some? ==> AfterInitFixed(c, BLANK, DefaultModelName(c), DEFAULT_MODEL_CACHE_DIR, lib).outcome.Pass?
    ensures r.Some? ==>
      && r.value.modelName == DefaultModelName(c) && r.value.modelType == ModelTypeName(c)
      && r.value.model.Some? && (c == ImageEmbedder ==> r.value.processor.Some?)
  {
    ModuleInstance(c, AfterInitFixed(c, BLANK, DefaultModelName(c), DEFAULT_MODEL_CACHE_DIR, lib), logsDimension, lib)
  }

  // ---------------------------------------------------------------------------
  // Read-only operations

  /** `BaseEmbedder.get_model_info` */
  function GetModelInfo(c: EmbedderClass, f: Fields): (info: ModelInfo)
    ensures info.modelName == f.modelName && info.modelType == f.modelType
    ensures info.description == if ClassDescription(c).Some? then ClassDescription(c).value else "N/A"
  {
    ModelInfo(f.modelName, f.modelType, ClassDescription(c).GetOr("N/A"))
  }

  /** `TextEmbedder.get_embedding` */
  function TextGetEmbedding(f: Fields, text: string, lib: Foreign): (r: Result<Vector, Exc>)
    ensures f.model.None? ==> r == Err(Exc(RuntimeError, "Text model " + f.modelName + " is not loaded properly."))
    ensures f.model.Some? ==> r == lib.encode(f.model.value, Str(text))
  {
    match f.model
    case None => Err(Exc(RuntimeError, "Text model " + f.modelName + " is not loaded properly."))
    case Some(m) => lib.encode(m, Str(text))
  }

  /** The `TextEmbedder.dimension` property: it never computes anything. */
  function TextDimension(f: Fields): (r: Result<int, Exc>)
    ensures r.Ok? <==> f.model.Some?
    ensures r.Ok? ==> r.value == f.dimension
    ensures r.Err? ==> r.error == Exc(RuntimeError, "Text model " + f.modelName + " is not loaded, dimension unknown.")
  {
    if f.model.None? then Err(Exc(RuntimeError, "Text model " + f.modelName + " is not loaded, dimension unknown."))
    else Ok(f.dimension)
  }

  /** The image bytes for a source: a str is fetched, bytes are used as they are. */
  function ImageBytesFromSource(source: Value, lib: Foreign): (r: Result<seq<byte>, Exc>)
    ensures source.Bytes? ==> r == Ok(source.b)
    ensures source.Str? && lib.httpGet(source.s, FETCH_TIMEOUT).Ok? ==> r == lib.httpGet(source.s, FETCH_TIMEOUT)
    ensures source.Str? && lib.httpGet(source.s, FETCH_TIMEOUT).Err? ==>
      var e := lib.httpGet(source.s, FETCH_TIMEOUT).error;
      r.Err? && (if e.kind == RequestException then r.error.kind == ValueError else r.error == e)
    ensures !source.Str? && !source.Bytes? ==> r == Err(Exc(TypeError, IMAGE_SOURCE_TYPE_ERROR))
  {
    match source
    case Str(url) =>
      (match lib.httpGet(url, FETCH_TIMEOUT)
       case Ok(content) => Ok(content)
       case Err(e) =>
         if e.kind == RequestException
         then Err(Exc(ValueError, "Could not download image from URL: " + url + ". Error: " + e.message))
         else Err(e))
    case Bytes(b) => Ok(b)
    case _ => Err(Exc(TypeError, IMAGE_SOURCE_TYPE_ERROR))
  }

  /** Decoding with PIL; any failure becomes ValueError. */
  function DecodeImage(bytes: seq<byte>, lib: Foreign): (r: Result<Image, Exc>)
    ensures r.Ok? <==> lib.openImage(bytes).Ok?
    ensures r.Ok? ==> r.value == lib.openImage(bytes).value
    ensures r.Err? ==> r.error.kind == ValueError
  {
    match lib.openImage(bytes)
    case Ok(img) => Ok(img)
    case Err(e) => Err(Exc(ValueError, "Could not open image. Error: " + e.message))
  }

  /** `ImageEmbedder.get_embedding`: the load guard, then source dispatch, decoding and
      the forward pass. */
  function ImageGetEmbedding(f: Fields, source: Value, lib: Foreign): (r: Result<Vector, Exc>)
    ensures f.model.None? || f.processor.None? ==>
      r == Err(Exc(RuntimeError, "Image model " + f.modelName + " is not loaded properly."))
    ensures f.model.Some? && f.processor.Some? && !source.Str? && !source.Bytes? ==>
      r == Err(Exc(TypeError, IMAGE_SOURCE_TYPE_ERROR))
    ensures f.model.Some? && f.processor.Some? && source.Bytes? ==>
      r == match lib.openImage(source.b)
           case Ok(img) => lib.imageForward(f.model.value, f.processor.value, img, f.device)
           case Err(e) => Err(Exc(ValueError, "Could not open image. Error: " + e.message))
    ensures f.model.Some? && f.processor.Some? && source.Str? ==>
      r == match ImageBytesFromSource(source, lib)
           case Err(e) => Err(e)
           case Ok(content) =>
             match DecodeImage(content, lib)
             case Err(e) => Err(e)
             case Ok(img) => lib.imageForward(f.model.value, f.processor.value, img, f.device)
    ensures r.Ok? ==> exists bytes :: ImageBytesFromSource(source, lib) == Ok(bytes) && DecodeImage(bytes, lib).Ok?
  {
    if f.model.None? || f.processor.None? then
      Err(Exc(RuntimeError, "Image model " + f.modelName + " is not loaded properly."))
    else
      var bytes :- ImageBytesFromSource(source, lib);
      var image :- DecodeImage(bytes, lib);
      lib.imageForward(f.model.value, f.processor.value, image, f.device)
  }

  /** The `ImageEmbedder.dimension` property, which caches `hidden_size` on first read. */
  function ImageDimensionRead(f: Fields): (r: Read)
    ensures f.dimension != 0 ==> r == Read(f, Ok(f.dimension))
    ensures f.dimension == 0 && f.model.None? ==>
      r == Read(f, Err(Exc(RuntimeError, "Image model " + f.modelName + " is not loaded, dimension unknown.")))
    ensures f.dimension == 0 && f.model.Some? && f.model.value.hiddenSize.None? ==>
      r == Read(f, Err(Exc(RuntimeError, "Image model " + f.modelName + " is loaded, but dimension could not be determined from config.")))
    ensures f.dimension == 0 && f.model.Some? && f.model.value.hiddenSize.Some? ==>
      r.result == Ok(f.model.value.hiddenSize.value) && r.fields == f.(dimension := f.model.value.hiddenSize.value)
  {
    if f.dimension == 0 && f.model.Some? then
      match f.model.value.hiddenSize
      case Some(h) => Read(f.(dimension := h), Ok(h))
      case None => Read(f, Err(Exc(RuntimeError, "Image model " + f.modelName + " is loaded, but dimension could not be determined from config.")))
    else if f.model.None? && f.dimension == 0 then
      Read(f, Err(Exc(RuntimeError, "Image model " + f.modelName + " is not loaded, dimension unknown.")))
    else Read(f, Ok(f.dimension))
  }

  /** `MultimodalEmbedder.get_embedding`: the load guard, then the input goes to `encode`
      as it is. */
  function MultimodalGetEmbedding(f: Fields, data: Value, lib: Foreign): (r: Result<Vector, Exc>)
    ensures f.model.None? ==> r == Err(Exc(RuntimeError, "Multimodal model " + f.modelName + " is not loaded properly."))
    ensures f.model.Some? ==> r == lib.encode(f.model.value, data)
  {
    match f.model
    case None => Err(Exc(RuntimeError, "Multimodal model " + f.modelName + " is not loaded properly."))
    case Some(m) => lib.encode(m, data)
  }

  /** The `MultimodalEmbedder.dimension` property, which re-resolves a zero width once. */
  function MultimodalDimensionRead(f: Fields, lib: Foreign): (r: Read)
    ensures f.model.None? ==>
      r == Read(f, Err(Exc(RuntimeError, "Multimodal model " + f.modelName + " is not loaded, dimension unknown.")))
    ensures f.model.Some? && f.dimension != 0 ==> r == Read(f, Ok(f.dimension))
    ensures f.model.Some? && f.dimension == 0 ==>
      match lib.sentenceEmbeddingDimension(f.model.value)
      case Ok(d) => r == Read(f.(dimension := d), Ok(d))
      case Err(e) => r == Read(f, Err(e))
  {
    if f.model.None? then
      Read(f, Err(Exc(RuntimeError, "Multimodal model " + f.modelName + " is not loaded, dimension unknown.")))
    else if f.dimension == 0 then
      match lib.sentenceEmbeddingDimension(f.model.value)
      case Ok(d) => Read(f.(dimension := d), Ok(d))
      case Err(e) => Read(f, Err(e))
    else Read(f, Ok(f.dimension))
  }

  /** `MultimodalEmbedder._load_image_from_source`: fetch or take the bytes, then decode. */
  function LoadImageFromSource(source: Value, lib: Foreign): (r: Result<Image, Exc>)
    ensures !source.Str? && !source.Bytes? ==> r == Err(Exc(TypeError, IMAGE_SOURCE_TYPE_ERROR))
    ensures source.Bytes? ==> r == DecodeImage(source.b, lib)
    ensures source.Str? ==>
      match lib.httpGet(source.s, FETCH_TIMEOUT)
      case Ok(content) => r == DecodeImage(content, lib)
      case Err(e) => r.Err? && (if e.kind == RequestException then r.error.kind == ValueError else r.error == e)
  {
    var bytes :- ImageBytesFromSource(source, lib);
    DecodeImage(bytes, lib)
  }

  // ---------------------------------------------------------------------------
  // The object

  class Embedder {
    const cls: EmbedderClass
    var modelName: string
    var modelType: string
    var modelCacheDir: Option<string>
    var device: string
    var model: Option<Model>
    var processor: Option<Processor>
    /** `_dimension` */
    var dimension: int
    /** How many times `_load_model` has run on this instance. */
    ghost var loadCalls: nat

    function Snapshot(): Fields
      reads this
    {
      Fields(modelName, modelType, modelCacheDir, device, model, processor, dimension)
    }

    /** Allocation of an instance of `cls`, before `__init__` runs. */
    constructor (cls: EmbedderClass)
      ensures this.cls == cls && Snapshot() == BLANK && loadCalls == 0
    {
      this.cls := cls;
      modelName, modelType, modelCacheDir, device := "", "", None, "";
      model, processor, dimension := None, None, 0;
      loadCalls := 0;
    }

    method TextLoadModel(lib: Foreign) returns (r: Outcome<Exc>)
      modifies this`model, this`dimension
      ensures Step(Snapshot(), r) == AfterTextLoad(old(Snapshot()), lib)
    {
      if modelCacheDir.None? {
        return Fail(NoAttribute(TextEmbedder, "model_cache_dir"));
      }
      var loaded := lib.sentenceTransformer(modelName, modelCacheDir.value);
      if loaded.Err? {
        model := None;
        return Fail(loaded.error);
      }
      model := Some(loaded.value);
      var probe := lib.encode(loaded.value, Str(PROBE_TEXT));
      if probe.Err? {
        model := None;
        return Fail(probe.error);
      }
      dimension := |probe.value|;
      r := Pass;
    }

    method ImageLoadModel(lib: Foreign) returns (r: Outcome<Exc>)
      modifies this`model, this`processor, this`dimension
      ensures Step(Snapshot(), r) == AfterImageLoad(old(Snapshot()), lib)
    {
      if modelCacheDir.None? {
        return Fail(NoAttribute(ImageEmbedder, "model_cache_dir"));
      }
      var p := lib.imageProcessor(modelName, modelCacheDir.value);
      if p.Err? {
        model, processor := None, None;
        return Fail(p.error);
      }
      processor := Some(p.value);
      var m := lib.autoModel(modelName, modelCacheDir.value, device);
      if m.Err? {
        model, processor := None, None;
        return Fail(m.error);
      }
      model := Some(m.value);
      if m.value.hiddenSize.Some? {
        dimension := m.value.hiddenSize.value;
      } else {
        var w := lib.probeWidth(m.value, p.value, device);
        if w.Err? {
          model, processor := None, None;
          return Fail(w.error);
        }
        dimension := w.value;
      }
      r := Pass;
    }

    method MultimodalLoadModel(lib: Foreign) returns (r: Outcome<Exc>)
      modifies this`model, this`dimension
      ensures Step(Snapshot(), r) == AfterMultimodalLoad(old(Snapshot()), lib)
    {
      if modelCacheDir.None? {
        return Fail(NoAttribute(MultimodalEmbedder, "model_cache_dir"));
      }
      var loaded := lib.sentenceTransformer(modelName, modelCacheDir.value);
      if loaded.Err? {
        model := None;
        return Fail(loaded.error);
      }
      model := Some(loaded.value);
      var d := lib.sentenceEmbeddingDimension(loaded.value);
      if d.Err? {
        model := None;
        return Fail(d.error);
      }
      dimension := d.value;
      r := Pass;
    }

    /** `self._load_model()` */
    method LoadModel(lib: Foreign) returns (r: Outcome<Exc>)
      modifies this`model, this`processor, this`dimension, this`loadCalls
      ensures Step(Snapshot(), r) == AfterLoad(cls, old(Snapshot()), lib)
      ensures loadCalls == old(loadCalls) + 1
    {
      loadCalls := loadCalls + 1;
      match cls
      case TextEmbedder => r := TextLoadModel(lib);
      case ImageEmbedder => r := ImageLoadModel(lib);
      case MultimodalEmbedder => r := MultimodalLoadModel(lib);
    }

    /** `BaseEmbedder.__init__`, called with keyword arguments. */
    method BaseInit(kwargs: seq<(string, string)>, lib: Foreign) returns (r: Outcome<Exc>)
      modifies this
      ensures Step(Snapshot(), r) == AfterBaseInit(cls, old(Snapshot()), kwargs, lib)
      ensures loadCalls == old(loadCalls) + if BindBaseArguments(kwargs).Ok? then 1 else 0
    {
      var bound := BindBaseArguments(kwargs);
      if bound.Err? {
        return Fail(bound.error);
      }
      modelName := bound.value.0;
      modelType := bound.value.1;
      model := None;
      r := LoadModel(lib);
    }

    /** A subclass `__init__`, as written: `device` first (image only), then the base
        constructor, then the resets of `_dimension` (and `processor`). */
    method Init(name: string, cacheDir: string, lib: Foreign) returns (r: Outcome<Exc>)
      modifies this
      ensures Step(Snapshot(), r) == AfterInit(cls, old(Snapshot()), name, cacheDir, lib)
      ensures loadCalls == old(loadCalls) + if BindBaseArguments(SuperKwargs(cls, name, cacheDir)).Ok? then 1 else 0
    {
      if cls == ImageEmbedder {
        device := DeviceName(lib);
      }
      r := BaseInit(SuperKwargs(cls, name, cacheDir), lib);
      if r.Pass? {
        dimension := 0;
        if cls == ImageEmbedder {
          processor := None;
        }
      }
    }

    /** The corrected base constructor: it takes and stores `model_cache_dir`. */
    method BaseInitFixed(name: string, modelType: string, cacheDir: string, lib: Foreign) returns (r: Outcome<Exc>)
      modifies this
      ensures Step(Snapshot(), r) == AfterBaseInitFixed(cls, old(Snapshot()), name, modelType, cacheDir, lib)
      ensures loadCalls == old(loadCalls) + 1
    {
      this.modelName := name;
      this.modelType := modelType;
      this.modelCacheDir := Some(cacheDir);
      this.model := None;
      r := LoadModel(lib);
    }

    /** The corrected subclass `__init__`: its own attributes first, then the base
        constructor, which loads the model exactly once. */
    method InitFixed(name: string, cacheDir: string, lib: Foreign) returns (r: Outcome<Exc>)
      modifies this
      ensures Step(Snapshot(), r) == AfterInitFixed(cls, old(Snapshot()), name, cacheDir, lib)
      ensures loadCalls == old(loadCalls) + 1
    {
      if cls == ImageEmbedder {
        device := DeviceName(lib);
        processor := None;
      }
      dimension := 0;
      r := BaseInitFixed(name, ModelTypeName(cls), cacheDir, lib);
    }

    /** Reading `ImageEmbedder.dimension`. */
    method ImageDimension() returns (r: Result<int, Exc>)
      modifies this`dimension
      ensures Read(Snapshot(), r) == ImageDimensionRead(old(Snapshot()))
    {
      if dimension == 0 && model.Some? {
        if model.value.hiddenSize.Some? {
          dimension := model.value.hiddenSize.value;
        } else {
          return Err(Exc(RuntimeError, "Image model " + modelName + " is loaded, but dimension could not be determined from config."));
        }
      } else if model.None? && dimension == 0 {
        return Err(Exc(RuntimeError, "Image model " + modelName + " is not loaded, dimension unknown."));
      }
      r := Ok(dimension);
    }

    /** Reading `MultimodalEmbedder.dimension`. */
    method MultimodalDimension(lib: Foreign) returns (r: Result<int, Exc>)
      modifies this`dimension
      ensures Read(Snapshot(), r) == MultimodalDimensionRead(old(Snapshot()), lib)
    {
      if model.None? {
        return Err(Exc(RuntimeError, "Multimodal model " + modelName + " is not loaded, dimension unknown."));
      }
      if dimension == 0 {
        var d := lib.sentenceEmbeddingDimension(model.value);
        if d.Err? {
          return Err(d.error);
        }
        dimension := d.value;
      }
      r := Ok(dimension);
    }
  }

  // ---------------------------------------------------------------------------
  // Properties of construction and loading

  /** Every subclass passes `model_cache_dir` to a base constructor that has no such
      parameter, so the call raises TypeError before anything is assigned. */
  lemma SuperCallRejected(c: EmbedderClass, name: string, cacheDir: string)
    ensures BindBaseArguments(SuperKwargs(c, name, cacheDir)) == Err(Exc(TypeError, UNEXPECTED_CACHE_DIR))
  {
    var kw := SuperKwargs(c, name, cacheDir);
    assert kw[2..] == [("model_cache_dir", cacheDir)];
    assert UnexpectedKeyword(kw) == UnexpectedKeyword(kw[1..]) == UnexpectedKeyword(kw[2..]) == Some("model_cache_dir");
  }

  /** As written, constructing any embedder raises that TypeError: `_load_model` never
      runs, and the only attribute set is the image embedder's `device`. */
  lemma ConstructionAlwaysFails(c: EmbedderClass, f: Fields, name: string, cacheDir: string, lib: Foreign)
    ensures AfterInit(c, f, name, cacheDir, lib) ==
      Step(if c == ImageEmbedder then f.(device := DeviceName(lib)) else f, Fail(Exc(TypeError, UNEXPECTED_CACHE_DIR)))
  {
    SuperCallRejected(c, name, cacheDir);
  }

  /** As written, no route module ever has an instance. */
  lemma {:induction false} DefaultInstanceAbsent(c: EmbedderClass, logsDimension: bool, lib: Foreign)
    ensures DefaultInstance(c, logsDimension, lib) == None
  {
    ConstructionAlwaysFails(c, BLANK, DefaultModelName(c), DEFAULT_MODEL_CACHE_DIR, lib);
  }

  /** The corrected base constructor sets `model_name`, `model_type` and `model = None`
      before `_load_model` runs: the model the load asks the library for is the one named
      by the constructor argument, and the two attributes survive the load. */
  lemma {:induction false} FixedBaseLoadsNamedModel(c: EmbedderClass, f: Fields, name: string, modelType: string, cacheDir: string, lib: Foreign)
    ensures var s := AfterBaseInitFixed(c, f, name, modelType, cacheDir, lib);
      && s.fields.modelName == name && s.fields.modelType == modelType
      && s.fields.modelCacheDir == Some(cacheDir)
      && (s.outcome.Pass? && c != ImageEmbedder ==> lib.sentenceTransformer(name, cacheDir) == Ok(s.fields.model.value))
      && (s.outcome.Pass? && c == ImageEmbedder ==> lib.autoModel(name, cacheDir, f.device) == Ok(s.fields.model.value))
  {
  }

  /** As written, the text embedder's `_dimension = 0` comes after the base constructor's
      load: even with the base call accepted, a model whose probe encoding is `|v|` wide
      reports dimension 0. */
  lemma TextResetLosesProbeWidth(f: Fields, name: string, cacheDir: string, lib: Foreign, m: Model, v: Vector)
    requires lib.sentenceTransformer(name, cacheDir) == Ok(m)
    requires lib.encode(m, Str(PROBE_TEXT)) == Ok(v) && |v| > 0
    ensures var s := AfterBaseInitFixed(TextEmbedder, f, name, "text", cacheDir, lib);
      s.outcome == Pass && s.fields.dimension == |v| &&
      TextDimension(ResetAfterBase(TextEmbedder, s.fields)) == Ok(0) != Ok(|v|)
  {
  }

  /** Corrected, a text embedder that loads reports the width of its probe encoding. */
  lemma FixedTextReportsProbeWidth(f: Fields, name: string, cacheDir: string, lib: Foreign, m: Model, v: Vector)
    requires lib.sentenceTransformer(name, cacheDir) == Ok(m)
    requires lib.encode(m, Str(PROBE_TEXT)) == Ok(v)
    ensures var s := AfterInitFixed(TextEmbedder, f, name, cacheDir, lib);
      s.outcome == Pass && s.fields.model == Some(m) && TextDimension(s.fields) == Ok(|v|)
  {
  }

  /** Corrected, when the model's encodings all have one width, every text embedding is
      exactly `dimension` long. */
  lemma FixedTextEmbeddingMatchesDimension(f: Fields, name: string, cacheDir: string, lib: Foreign, m: Model, width: int, text: string)
    requires lib.sentenceTransformer(name, cacheDir) == Ok(m)
    requires forall x :: lib.encode(m, x).Ok? ==> |lib.encode(m, x).value| == width
    ensures var s := AfterInitFixed(TextEmbedder, f, name, cacheDir, lib);
      s.outcome.Pass? && TextGetEmbedding(s.fields, text, lib).Ok? ==>
        |TextGetEmbedding(s.fields, text, lib).value| == TextDimension(s.fields).value == width
  {
    var s := AfterInitFixed(TextEmbedder, f, name, cacheDir, lib);
    if s.outcome.Pass? {
      assert s.fields.model == Some(m);
      assert lib.encode(m, Str(PROBE_TEXT)).Ok?;
    }
  }

  /** As written, the image embedder's `processor = None` comes after the base
      constructor's load, so every `get_embedding` raises RuntimeError, whatever the
      source. */
  lemma ImageResetDisablesEmbedding(f: Fields, source: Value, lib: Foreign)
    ensures ImageGetEmbedding(ResetAfterBase(ImageEmbedder, f), source, lib) ==
      Err(Exc(RuntimeError, "Image model " + f.modelName + " is not loaded properly."))
  {
  }

  /** Corrected, an image embedder whose processor and model load, and whose width is
      known from `hidden_size` or from the probe run, keeps its processor, and embedding
      image bytes decodes them and runs the model. */
  lemma FixedImageEmbeds(f: Fields, name: string, cacheDir: string, lib: Foreign, b: seq<byte>)
    requires lib.imageProcessor(name, cacheDir).Ok?
    requires lib.autoModel(name, cacheDir, DeviceName(lib)).Ok?
    requires var m := lib.autoModel(name, cacheDir, DeviceName(lib)).value;
      m.hiddenSize.Some? || lib.probeWidth(m, lib.imageProcessor(name, cacheDir).value, DeviceName(lib)).Ok?
    ensures var s := AfterInitFixed(ImageEmbedder, f, name, cacheDir, lib);
      && s.outcome == Pass
      && s.fields.processor == Some(lib.imageProcessor(name, cacheDir).value)
      && ImageGetEmbedding(s.fields, Bytes(b), lib) ==
         match lib.openImage(b)
         case Ok(img) => lib.imageForward(s.fields.model.value, s.fields.processor.value, img, DeviceName(lib))
         case Err(e) => Err(Exc(ValueError, "Could not open image. Error: " + e.message))
  {
  }

  /** `dimension` of the image embedder caches what it resolves: a second read answers
      the same and changes nothing. */
  lemma {:induction false} ImageDimensionIdempotent(f: Fields)
    ensures var first := ImageDimensionRead(f);
      first.result.Ok? ==> ImageDimensionRead(first.fields) == Read(first.fields, first.result)
  {
    var first := ImageDimensionRead(f);
    if first.result.Ok? && f.dimension == 0 {
      assert f.model.Some? && f.model.value.hiddenSize.Some?;
      var h := f.model.value.hiddenSize.value;
      assert first.fields == f.(dimension := h);
      if h == 0 {
        assert ImageDimensionRead(first.fields) == Read(f.(dimension := h), Ok(h));
      }
    }
  }

  /** `dimension` of the multimodal embedder resolves a zero width at most once per
      non-zero answer: after a read that caches a non-zero width, the next read makes no
      library call and answers the same. */
  lemma {:induction false} MultimodalDimensionIdempotent(f: Fields, lib: Foreign, lib2: Foreign)
    ensures var first := MultimodalDimensionRead(f, lib);
      first.result.Ok? && first.result.value != 0 ==>
        MultimodalDimensionRead(first.fields, lib2) == Read(first.fields, first.result)
  {
    var first := MultimodalDimensionRead(f, lib);
    if first.result.Ok? && first.result.value != 0 {
      assert f.model.Some?;
      assert first.fields.model == f.model;
      assert first.fields.dimension == first.result.value;
    }
  }
}
