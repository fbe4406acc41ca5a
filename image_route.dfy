/** `POST /embeddings/image/upload` and `POST /embeddings/image/url`: the image endpoints,
    served by one image embedder built when the route module is imported. */
module ImageRoute {
  import opened Common
  import opened Schemas
  import opened Embedders

  const UNAVAILABLE := "Image embedding model is not available."
  const EMPTY_UPLOAD := "No image file content provided."
  const UPLOAD_INTERNAL_ERROR := "Internal server error while processing image upload."
  const URL_INTERNAL_ERROR := "Internal server error while processing image URL."

  /** Embed one image source, then build the response, which reads `dimension`. The
      property's cache write is not carried back to the instance; by
      `ImageDimensionIdempotent` a later read answers the same. */
  function EmbedImage(f: Fields, source: Value, lib: Foreign): (r: Result<EmbeddingResponse, Exc>)
    ensures r.Ok? <==> ImageGetEmbedding(f, source, lib).Ok? && ImageDimensionRead(f).result.Ok?
    ensures r.Ok? ==> r.value == EmbeddingResponse(ImageGetEmbedding(f, source, lib).value, f.modelName, ImageDimensionRead(f).result.value)
    ensures ImageGetEmbedding(f, source, lib).Err? ==> r == Err(ImageGetEmbedding(f, source, lib).error)
  {
    var embedding :- ImageGetEmbedding(f, source, lib);
    var dim :- ImageDimensionRead(f).result;
    Ok(EmbeddingResponse(embedding, f.modelName, dim))
  }

  /** The upload handler's `try` body: the emptiness check raises an HTTPException inside
      the `try`. */
  function UploadAttempt(f: Fields, contents: seq<byte>, lib: Foreign): (r: Result<EmbeddingResponse, Exc>)
    ensures contents == [] ==> r == Err(Exc(HttpException(400), EMPTY_UPLOAD))
    ensures contents != [] ==> r == EmbedImage(f, Bytes(contents), lib)
  {
    if contents == [] then Err(Exc(HttpException(400), EMPTY_UPLOAD))
    else EmbedImage(f, Bytes(contents), lib)
  }

  /** `create_image_embedding_upload_v1`, as written: the `except Exception` clause also
      catches the handler's own HTTPException. */
  function CreateImageEmbeddingUpload(instance: Option<Fields>, contents: seq<byte>, modelName: Option<string>, lib: Foreign): (r: Response<EmbeddingResponse>)
    ensures instance.None? ==> r == HttpError(503, UNAVAILABLE)
    ensures instance.Some? && contents != [] ==>
      (r.Success? <==> ImageGetEmbedding(instance.value, Bytes(contents), lib).Ok? && ImageDimensionRead(instance.value).result.Ok?)
    ensures r.Success? ==>
      && instance.Some? && contents != []
      && r.body == EmbeddingResponse(ImageGetEmbedding(instance.value, Bytes(contents), lib).value,
                                     instance.value.modelName, ImageDimensionRead(instance.value).result.value)
  {
    match instance
    case None => HttpError(503, UNAVAILABLE)
    case Some(f) =>
      match UploadAttempt(f, contents, lib)
      case Ok(body) => Success(body)
      case Err(e) => MapStandardError(e, UPLOAD_INTERNAL_ERROR)
  }

  /** The upload handler with the HTTPException passed through unchanged. */
  function CreateImageEmbeddingUploadFixed(instance: Option<Fields>, contents: seq<byte>, modelName: Option<string>, lib: Foreign): (r: Response<EmbeddingResponse>)
    ensures instance.None? ==> r == HttpError(503, UNAVAILABLE)
    ensures instance.Some? && UploadAttempt(instance.value, contents, lib).Err? &&
            UploadAttempt(instance.value, contents, lib).error.kind.HttpException? ==>
      r == HttpError(UploadAttempt(instance.value, contents, lib).error.kind.status, UploadAttempt(instance.value, contents, lib).error.message)
    ensures !(instance.Some? && UploadAttempt(instance.value, contents, lib).Err? &&
              UploadAttempt(instance.value, contents, lib).error.kind.HttpException?) ==>
      r == CreateImageEmbeddingUpload(instance, contents, modelName, lib)
    ensures r.Success? ==>
      && instance.Some? && contents != []
      && r.body == EmbeddingResponse(ImageGetEmbedding(instance.value, Bytes(contents), lib).value,
                                     instance.value.modelName, ImageDimensionRead(instance.value).result.value)
  {
    match instance
    case None => HttpError(503, UNAVAILABLE)
    case Some(f) =>
      match UploadAttempt(f, contents, lib)
      case Ok(body) => Success(body)
      case Err(e) =>
        if e.kind.HttpException? then HttpError(e.kind.status, e.message)
        else MapStandardError(e, UPLOAD_INTERNAL_ERROR)
  }

  /** `create_image_embedding_url_v1`: the URL goes to `get_embedding` as a str. */
  function CreateImageEmbeddingUrl(instance: Option<Fields>, request: ImageUrlRequest, lib: Foreign): (r: Response<EmbeddingResponse>)
    ensures instance.None? ==> r == HttpError(503, UNAVAILABLE)
    ensures instance.Some? ==>
      (r.Success? <==> ImageGetEmbedding(instance.value, Str(request.url), lib).Ok? && ImageDimensionRead(instance.value).result.Ok?)
    ensures r.Success? ==>
      && instance.Some?
      && r.body == EmbeddingResponse(ImageGetEmbedding(instance.value, Str(request.url), lib).value,
                                     instance.value.modelName, ImageDimensionRead(instance.value).result.value)
  {
    match instance
    case None => HttpError(503, UNAVAILABLE)
    case Some(f) =>
      match EmbedImage(f, Str(request.url), lib)
      case Ok(body) => Success(body)
      case Err(e) => MapStandardError(e, URL_INTERNAL_ERROR)
  }

  /** Neither endpoint looks at the requested model name. */
  lemma RequestedModelIgnored(instance: Option<Fields>, contents: seq<byte>, url: string, m1: Option<string>, m2: Option<string>, lib: Foreign)
    ensures CreateImageEmbeddingUpload(instance, contents, m1, lib) == CreateImageEmbeddingUpload(instance, contents, m2, lib)
    ensures CreateImageEmbeddingUrl(instance, ImageUrlRequest(url, m1), lib) == CreateImageEmbeddingUrl(instance, ImageUrlRequest(url, m2), lib)
  {
  }

  /** As written, an empty upload is answered with 500, not with the 400 the handler
      raises. */
  lemma {:induction false} EmptyUploadBecomesInternalError(f: Fields, modelName: Option<string>, lib: Foreign)
    ensures CreateImageEmbeddingUpload(Some(f), [], modelName, lib) == HttpError(500, UPLOAD_INTERNAL_ERROR)
  {
    assert UploadAttempt(f, [], lib) == Err(Exc(HttpException(400), EMPTY_UPLOAD));
  }

  /** Corrected, an empty upload is rejected with 400 before any embedding call. */
  lemma {:induction false} FixedUploadRejectsEmpty(f: Fields, modelName: Option<string>, lib: Foreign)
    ensures CreateImageEmbeddingUploadFixed(Some(f), [], modelName, lib) == HttpError(400, EMPTY_UPLOAD)
  {
    assert UploadAttempt(f, [], lib) == Err(Exc(HttpException(400), EMPTY_UPLOAD));
  }

  /** The correction changes nothing else: a non-empty upload is answered as before,
      as long as the model's forward pass raises no HTTPException of its own. */
  lemma {:induction false} FixedUploadAgreesOnContent(f: Fields, contents: seq<byte>, modelName: Option<string>, lib: Foreign)
    requires contents != []
    requires forall m, p, img, d :: lib.imageForward(m, p, img, d).Err? ==> !lib.imageForward(m, p, img, d).error.kind.HttpException?
    ensures CreateImageEmbeddingUploadFixed(Some(f), contents, modelName, lib) == CreateImageEmbeddingUpload(Some(f), contents, modelName, lib)
  {
    ImageSourceErrorsAreNotHttp(f, Bytes(contents), lib);
  }

  /** `get_embedding` and `dimension` raise no HTTPException of their own unless a
      foreign call does. */
  lemma {:induction false} ImageSourceErrorsAreNotHttp(f: Fields, source: Value, lib: Foreign)
    requires source.Bytes?
    requires forall m, p, img, d :: lib.imageForward(m, p, img, d).Err? ==> !lib.imageForward(m, p, img, d).error.kind.HttpException?
    ensures EmbedImage(f, source, lib).Err? ==> !EmbedImage(f, source, lib).error.kind.HttpException?
  {
  }

  /** A URL that downloads and decodes is embedded by the forward pass on the decoded
      image, and the response carries that embedding, the name and the `dimension` read. */
  lemma {:induction false} ImageUrlEmbedded(f: Fields, request: ImageUrlRequest, lib: Foreign, content: seq<byte>, img: Image)
    requires f.model.Some? && f.processor.Some?
    requires lib.httpGet(request.url, FETCH_TIMEOUT) == Ok(content) && lib.openImage(content) == Ok(img)
    requires lib.imageForward(f.model.value, f.processor.value, img, f.device).Ok? && ImageDimensionRead(f).result.Ok?
    ensures CreateImageEmbeddingUrl(Some(f), request, lib) ==
      Success(EmbeddingResponse(lib.imageForward(f.model.value, f.processor.value, img, f.device).value,
                                f.modelName, ImageDimensionRead(f).result.value))
  {
    assert ImageBytesFromSource(Str(request.url), lib) == Ok(content);
    assert DecodeImage(content, lib) == Ok(img);
  }

  /** How the upload endpoint reports each failure of a non-empty upload: the load guard,
      bytes PIL cannot open, a forward-pass error by its class, and a `dimension` read
      that raises. */
  lemma {:induction false} UploadFailureStatuses(f: Fields, contents: seq<byte>, modelName: Option<string>, lib: Foreign)
    requires contents != []
    ensures var r := CreateImageEmbeddingUpload(Some(f), contents, modelName, lib);
      && (f.model.None? || f.processor.None? ==> r == HttpError(503, "Image model " + f.modelName + " is not loaded properly."))
      && (f.model.Some? && f.processor.Some? && lib.openImage(contents).Err? ==>
            r == HttpError(400, "Could not open image. Error: " + lib.openImage(contents).error.message))
      && (f.model.Some? && f.processor.Some? && lib.openImage(contents).Ok? &&
          lib.imageForward(f.model.value, f.processor.value, lib.openImage(contents).value, f.device).Err? ==>
            var e := lib.imageForward(f.model.value, f.processor.value, lib.openImage(contents).value, f.device).error;
            r == if e.kind == ValueError then HttpError(400, e.message)
                 else if e.kind == RuntimeError then HttpError(503, e.message)
                 else HttpError(500, UPLOAD_INTERNAL_ERROR))
      && (f.model.Some? && f.processor.Some? && lib.openImage(contents).Ok? &&
          lib.imageForward(f.model.value, f.processor.value, lib.openImage(contents).value, f.device).Ok? &&
          ImageDimensionRead(f).result.Err? ==>
            r == HttpError(503, ImageDimensionRead(f).result.error.message))
  {
    assert UploadAttempt(f, contents, lib) == EmbedImage(f, Bytes(contents), lib);
    if f.model.Some? && f.processor.Some? && lib.openImage(contents).Ok? &&
       lib.imageForward(f.model.value, f.processor.value, lib.openImage(contents).value, f.device).Ok? &&
       ImageDimensionRead(f).result.Err? {
      assert EmbedImage(f, Bytes(contents), lib) == Err(ImageDimensionRead(f).result.error);
    }
  }

  /** How the URL endpoint reports each failure: the load guard, a failed download (a
      RequestException with the message `get_embedding` gives it, any other error by its
      class), bytes PIL cannot open, a forward-pass error by its class, and a `dimension`
      read that raises. */
  lemma {:induction false} UrlFailureStatuses(f: Fields, request: ImageUrlRequest, lib: Foreign)
    ensures var r := CreateImageEmbeddingUrl(Some(f), request, lib);
      var get := lib.httpGet(request.url, FETCH_TIMEOUT);
      && (f.model.None? || f.processor.None? ==> r == HttpError(503, "Image model " + f.modelName + " is not loaded properly."))
      && (f.model.Some? && f.processor.Some? && get.Err? && get.error.kind == RequestException ==>
            r == HttpError(400, "Could not download image from URL: " + request.url + ". Error: " + get.error.message))
      && (f.model.Some? && f.processor.Some? && get.Err? && get.error.kind != RequestException ==>
            r == MapStandardError(get.error, URL_INTERNAL_ERROR))
      && (f.model.Some? && f.processor.Some? && get.Ok? && lib.openImage(get.value).Err? ==>
            r == HttpError(400, "Could not open image. Error: " + lib.openImage(get.value).error.message))
      && (f.model.Some? && f.processor.Some? && get.Ok? && lib.openImage(get.value).Ok? &&
          lib.imageForward(f.model.value, f.processor.value, lib.openImage(get.value).value, f.device).Err? ==>
            r == MapStandardError(lib.imageForward(f.model.value, f.processor.value, lib.openImage(get.value).value, f.device).error, URL_INTERNAL_ERROR))
      && (f.model.Some? && f.processor.Some? && get.Ok? && lib.openImage(get.value).Ok? &&
          lib.imageForward(f.model.value, f.processor.value, lib.openImage(get.value).value, f.device).Ok? &&
          ImageDimensionRead(f).result.Err? ==>
            r == HttpError(503, ImageDimensionRead(f).result.error.message))
  {
    var get := lib.httpGet(request.url, FETCH_TIMEOUT);
    if f.model.Some? && f.processor.Some? {
      if get.Ok? {
        assert ImageBytesFromSource(Str(request.url), lib) == Ok(get.value);
        if lib.openImage(get.value).Ok? &&
           lib.imageForward(f.model.value, f.processor.value, lib.openImage(get.value).value, f.device).Ok? &&
           ImageDimensionRead(f).result.Err? {
          assert EmbedImage(f, Str(request.url), lib) == Err(ImageDimensionRead(f).result.error);
        }
      } else {
        assert ImageGetEmbedding(f, Str(request.url), lib) == Err(ImageBytesFromSource(Str(request.url), lib).error);
      }
    }
  }

  /** As written, neither endpoint ever has an instance. */
  lemma {:induction false} AsWrittenAlwaysUnavailable(contents: seq<byte>, request: ImageUrlRequest, modelName: Option<string>, lib: Foreign)
    ensures CreateImageEmbeddingUpload(DefaultInstance(ImageEmbedder, true, lib), contents, modelName, lib) == HttpError(503, UNAVAILABLE)
    ensures CreateImageEmbeddingUrl(DefaultInstance(ImageEmbedder, true, lib), request, lib) == HttpError(503, UNAVAILABLE)
  {
    DefaultInstanceAbsent(ImageEmbedder, true, lib);
  }
}
