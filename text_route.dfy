/** `POST /embeddings/text`: the text endpoint, served by one text embedder built when
    the route module is imported. */
module TextRoute {
  import opened Common
  import opened Schemas
  import opened Embedders

  const UNAVAILABLE := "Text embedding model is not available."
  const INTERNAL_ERROR := "Internal server error while processing text embedding."

  /** The `try` body: embed the text, then build the response, which reads `dimension`. */
  function EmbedText(f: Fields, text: string, lib: Foreign): (r: Result<EmbeddingResponse, Exc>)
    ensures r.Ok? <==> TextGetEmbedding(f, text, lib).Ok? && TextDimension(f).Ok?
    ensures r.Ok? ==> r.value == EmbeddingResponse(TextGetEmbedding(f, text, lib).value, f.modelName, f.dimension)
    ensures TextGetEmbedding(f, text, lib).Err? ==> r == Err(TextGetEmbedding(f, text, lib).error)
  {
    var embedding :- TextGetEmbedding(f, text, lib);
    var dim :- TextDimension(f);
    Ok(EmbeddingResponse(embedding, f.modelName, dim))
  }

  /** `create_text_embedding_v1`, given the module-level instance (None when its
      construction raised at import). The request's `model_name` only selects a log
      line. */
  function CreateTextEmbedding(instance: Option<Fields>, request: TextRequest, lib: Foreign): (r: Response<EmbeddingResponse>)
    ensures instance.None? ==> r == HttpError(503, UNAVAILABLE)
    ensures r.Success? ==>
      && instance.Some? && instance.value.model.Some?
      && lib.encode(instance.value.model.value, Str(request.text)).Ok?
      && r.body == EmbeddingResponse(lib.encode(instance.value.model.value, Str(request.text)).value,
                                     instance.value.modelName, instance.value.dimension)
  {
    match instance
    case None => HttpError(503, UNAVAILABLE)
    case Some(f) =>
      match EmbedText(f, request.text, lib)
      case Ok(body) => Success(body)
      case Err(e) => MapStandardError(e, INTERNAL_ERROR)
  }

  /** The request's `model_name` never changes the response. */
  lemma RequestedModelIgnored(instance: Option<Fields>, text: string, m1: Option<string>, m2: Option<string>, lib: Foreign)
    ensures CreateTextEmbedding(instance, TextRequest(text, m1), lib) == CreateTextEmbedding(instance, TextRequest(text, m2), lib)
  {
  }

  /** How each failure of a loaded or unloaded instance reaches the client. */
  lemma {:induction false} TextFailureStatuses(f: Fields, request: TextRequest, lib: Foreign)
    ensures var r := CreateTextEmbedding(Some(f), request, lib);
      && (f.model.None? ==> r == HttpError(503, "Text model " + f.modelName + " is not loaded properly."))
      && (f.model.Some? && lib.encode(f.model.value, Str(request.text)).Err? ==>
            var e := lib.encode(f.model.value, Str(request.text)).error;
            r == if e.kind == ValueError then HttpError(400, e.message)
                 else if e.kind == RuntimeError then HttpError(503, e.message)
                 else HttpError(500, INTERNAL_ERROR))
      && (f.model.Some? && lib.encode(f.model.value, Str(request.text)).Ok? ==> r.Success?)
  {
    var a := EmbedText(f, request.text, lib);
    if f.model.Some? && lib.encode(f.model.value, Str(request.text)).Ok? {
      assert TextDimension(f).Ok?;
      assert a.Ok?;
    }
  }

  /** As written the module-level instance never exists, so the endpoint always answers
      503. */
  lemma {:induction false} AsWrittenAlwaysUnavailable(request: TextRequest, lib: Foreign)
    ensures CreateTextEmbedding(DefaultInstance(TextEmbedder, true, lib), request, lib) == HttpError(503, UNAVAILABLE)
  {
    DefaultInstanceAbsent(TextEmbedder, true, lib);
  }

  /** With the corrected constructor, a model that loads serves embeddings whose `dim` is
      the width of its probe encoding. */
  lemma {:induction false} FixedServesProbeWidth(request: TextRequest, lib: Foreign, m: Model, probe: Vector, v: Vector)
    requires lib.sentenceTransformer(DefaultModelName(TextEmbedder), DEFAULT_MODEL_CACHE_DIR) == Ok(m)
    requires lib.encode(m, Str(PROBE_TEXT)) == Ok(probe)
    requires lib.encode(m, Str(request.text)) == Ok(v)
    ensures CreateTextEmbedding(DefaultInstanceFixed(TextEmbedder, true, lib), request, lib) ==
      Success(EmbeddingResponse(v, DefaultModelName(TextEmbedder), |probe|))
  {
    FixedTextReportsProbeWidth(BLANK, DefaultModelName(TextEmbedder), DEFAULT_MODEL_CACHE_DIR, lib, m, probe);
  }
}
