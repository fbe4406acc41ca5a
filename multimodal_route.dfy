/** `POST /multimodal/embed`: one multimodal embedder, built when the route module is
    imported, embeds exactly one of a text, an image URL or an uploaded image file. */
module MultimodalRoute {
  import opened Common
  import opened Schemas
  import opened Embedders

  const UNAVAILABLE := "Multimodal embedding model is not available."
  const EXACTLY_ONE := "Please provide exactly one of: 'text', 'image_url', or 'image_file'."
  const NO_INPUT := "No input provided. Please provide 'text', 'image_url', or 'image_file'."
  const IMAGE_PREFIX := "image/"

  /** A form field counts as provided when it is present and not "". */
  predicate Provided(field: Option<string>) {
    field.Some? && field.value != ""
  }

  /** How many of the three inputs are provided; the file counts whenever it is sent. */
  function ProvidedCount(text: Option<string>, imageUrl: Option<string>, imageFile: Option<Upload>): (n: nat)
    ensures n <= 3
    ensures n == 0 <==> !Provided(text) && !Provided(imageUrl) && imageFile.None?
    ensures n == 1 <==>
      || (Provided(text) && !Provided(imageUrl) && imageFile.None?)
      || (!Provided(text) && Provided(imageUrl) && imageFile.None?)
      || (!Provided(text) && !Provided(imageUrl) && imageFile.Some?)
  {
    (if Provided(text) then 1 else 0) + (if Provided(imageUrl) then 1 else 0) + (if imageFile.Some? then 1 else 0)
  }

  /** `content_type` is set and starts with "image/". */
  predicate IsImageContentType(contentType: Option<string>) {
    contentType.Some? && |contentType.value| >= |IMAGE_PREFIX| && contentType.value[..|IMAGE_PREFIX|] == IMAGE_PREFIX
  }

  /** `str()` of an optional string, as an f-string renders it. */
  function Rendered(s: Option<string>): string {
    if s.Some? then s.value else "None"
  }

  function InvalidUrl(url: string): Exc {
    Exc(HttpException(400), "Invalid URL format provided for image_url: " + url)
  }

  function InvalidFileType(contentType: Option<string>): Exc {
    Exc(HttpException(400), "Invalid image file type: " + Rendered(contentType) + ". Please upload a valid image (e.g., JPEG, PNG).")
  }

  /** The first half of the `try`: bind `embedding_input` from the first provided channel.
      `httpUrl` is pydantic's `HttpUrl` constructor: the normalised URL, or None when it
      rejects the string. */
  function SelectInput(text: Option<string>, imageUrl: Option<string>, imageFile: Option<Upload>,
                       httpUrl: string -> Option<string>, lib: Foreign): (r: Result<Value, Exc>)
    ensures Provided(text) ==> r == Ok(Str(text.value))
    ensures !Provided(text) && Provided(imageUrl) && httpUrl(imageUrl.value).None? ==> r == Err(InvalidUrl(imageUrl.value))
    ensures !Provided(text) && Provided(imageUrl) && httpUrl(imageUrl.value).Some? ==>
      match LoadImageFromSource(Str(httpUrl(imageUrl.value).value), lib)
      case Ok(img) => r == Ok(Img(img))
      case Err(e) => r == Err(e)
    ensures !Provided(text) && !Provided(imageUrl) && imageFile.Some? && !IsImageContentType(imageFile.value.contentType) ==>
      r == Err(InvalidFileType(imageFile.value.contentType))
    ensures !Provided(text) && !Provided(imageUrl) && imageFile.Some? && IsImageContentType(imageFile.value.contentType) ==>
      match LoadImageFromSource(Bytes(imageFile.value.contents), lib)
      case Ok(img) => r == Ok(Img(img))
      case Err(e) => r == Err(e)
  {
    if Provided(text) then Ok(Str(text.value))
    else if Provided(imageUrl) then
      match httpUrl(imageUrl.value)
      case None => Err(InvalidUrl(imageUrl.value))
      case Some(url) =>
        var image :- LoadImageFromSource(Str(url), lib);
        Ok(Img(image))
    else if imageFile.Some? then
      if !IsImageContentType(imageFile.value.contentType) then Err(InvalidFileType(imageFile.value.contentType))
      else
        var image :- LoadImageFromSource(Bytes(imageFile.value.contents), lib);
        Ok(Img(image))
    else Err(Exc(HttpException(400), NO_INPUT))
  }

  /** The whole `try` body: select, embed, then build the response, which reads
      `dimension`. The property's cache write is not carried back to the instance; by
      `MultimodalDimensionIdempotent` a later read answers the same. */
  function EmbedInput(f: Fields, text: Option<string>, imageUrl: Option<string>, imageFile: Option<Upload>,
                      httpUrl: string -> Option<string>, lib: Foreign): (r: Result<EmbeddingResponse, Exc>)
    ensures r.Ok? <==>
      && SelectInput(text, imageUrl, imageFile, httpUrl, lib).Ok?
      && MultimodalGetEmbedding(f, SelectInput(text, imageUrl, imageFile, httpUrl, lib).value, lib).Ok?
      && MultimodalDimensionRead(f, lib).result.Ok?
    ensures r.Ok? ==> r.value == EmbeddingResponse(
      MultimodalGetEmbedding(f, SelectInput(text, imageUrl, imageFile, httpUrl, lib).value, lib).value,
      f.modelName, MultimodalDimensionRead(f, lib).result.value)
    ensures SelectInput(text, imageUrl, imageFile, httpUrl, lib).Err? ==> r == Err(SelectInput(text, imageUrl, imageFile, httpUrl, lib).error)
  {
    var input :- SelectInput(text, imageUrl, imageFile, httpUrl, lib);
    var embedding :- MultimodalGetEmbedding(f, input, lib);
    var dim :- MultimodalDimensionRead(f, lib).result;
    Ok(EmbeddingResponse(embedding, f.modelName, dim))
  }

  /** The handler's `except` chain, in its order. */
  function MapMultimodalError(e: Exc): (r: Response<EmbeddingResponse>)
    ensures r.HttpError?
    ensures e.kind == ValueError ==> r == HttpError(400, e.message)
    ensures e.kind == RuntimeError ==> r == HttpError(503, "Model runtime error: " + e.message)
    ensures e.kind.HttpException? ==> r == HttpError(e.kind.status, e.message)
    ensures !e.kind.HttpException? && e.kind != ValueError && e.kind != RuntimeError ==>
      r == HttpError(500, "An unexpected error occurred: " + e.message)
  {
    match e.kind
    case ValueError => HttpError(400, e.message)
    case RuntimeError => HttpError(503, "Model runtime error: " + e.message)
    case HttpException(status) => HttpError(status, e.message)
    case _ => HttpError(500, "An unexpected error occurred: " + e.message)
  }

  /** `get_multimodal_embedding_v1` on the module-level instance (None when its
      construction raised at import). */
  function GetMultimodalEmbedding(instance: Option<Fields>, text: Option<string>, imageUrl: Option<string>, imageFile: Option<Upload>,
                                  httpUrl: string -> Option<string>, lib: Foreign): (r: Response<EmbeddingResponse>)
    ensures instance.None? ==> r == HttpError(503, UNAVAILABLE)
    ensures instance.Some? && ProvidedCount(text, imageUrl, imageFile) != 1 ==> r == HttpError(400, EXACTLY_ONE)
    ensures instance.Some? && ProvidedCount(text, imageUrl, imageFile) == 1 ==>
      r == match EmbedInput(instance.value, text, imageUrl, imageFile, httpUrl, lib)
           case Ok(body) => Success(body)
           case Err(e) => MapMultimodalError(e)
    ensures r.Success? ==>
      && instance.Some? && ProvidedCount(text, imageUrl, imageFile) == 1
      && SelectInput(text, imageUrl, imageFile, httpUrl, lib).Ok?
      && r.body == EmbeddingResponse(
           MultimodalGetEmbedding(instance.value, SelectInput(text, imageUrl, imageFile, httpUrl, lib).value, lib).value,
           instance.value.modelName, MultimodalDimensionRead(instance.value, lib).result.value)
  {
    match instance
    case None => HttpError(503, UNAVAILABLE)
    case Some(f) =>
      if ProvidedCount(text, imageUrl, imageFile) != 1 then HttpError(400, EXACTLY_ONE)
      else
        match EmbedInput(f, text, imageUrl, imageFile, httpUrl, lib)
        case Ok(body) => Success(body)
        case Err(e) => MapMultimodalError(e)
  }

  /** A text goes to the model unchanged, and the response carries what the model
      answers for it. */
  lemma {:induction false} TextPassedUnchanged(f: Fields, t: string, httpUrl: string -> Option<string>, lib: Foreign)
    requires t != "" && f.model.Some?
    requires lib.encode(f.model.value, Str(t)).Ok? && MultimodalDimensionRead(f, lib).result.Ok?
    ensures GetMultimodalEmbedding(Some(f), Some(t), None, None, httpUrl, lib) ==
      Success(EmbeddingResponse(lib.encode(f.model.value, Str(t)).value, f.modelName, MultimodalDimensionRead(f, lib).result.value))
  {
    assert ProvidedCount(Some(t), None, None) == 1;
    assert SelectInput(Some(t), None, None, httpUrl, lib) == Ok(Str(t));
  }

  /** An accepted URL is normalised, downloaded and decoded, and the response carries
      what the model answers for the decoded image. */
  lemma {:induction false} ImageUrlEmbedded(f: Fields, url: string, httpUrl: string -> Option<string>, lib: Foreign,
                                            normalised: string, content: seq<byte>, img: Image)
    requires url != "" && httpUrl(url) == Some(normalised)
    requires lib.httpGet(normalised, FETCH_TIMEOUT) == Ok(content) && lib.openImage(content) == Ok(img)
    requires f.model.Some? && lib.encode(f.model.value, Img(img)).Ok? && MultimodalDimensionRead(f, lib).result.Ok?
    ensures GetMultimodalEmbedding(Some(f), None, Some(url), None, httpUrl, lib) ==
      Success(EmbeddingResponse(lib.encode(f.model.value, Img(img)).value, f.modelName, MultimodalDimensionRead(f, lib).result.value))
  {
    assert ProvidedCount(None, Some(url), None) == 1;
    assert LoadImageFromSource(Str(normalised), lib) == Ok(img);
    assert SelectInput(None, Some(url), None, httpUrl, lib) == Ok(Img(img));
  }

  /** An uploaded file with an image content type is decoded from its bytes, and the
      response carries what the model answers for the decoded image. */
  lemma {:induction false} ImageFileEmbedded(f: Fields, file: Upload, httpUrl: string -> Option<string>, lib: Foreign, img: Image)
    requires IsImageContentType(file.contentType) && lib.openImage(file.contents) == Ok(img)
    requires f.model.Some? && lib.encode(f.model.value, Img(img)).Ok? && MultimodalDimensionRead(f, lib).result.Ok?
    ensures GetMultimodalEmbedding(Some(f), None, None, Some(file), httpUrl, lib) ==
      Success(EmbeddingResponse(lib.encode(f.model.value, Img(img)).value, f.modelName, MultimodalDimensionRead(f, lib).result.value))
  {
    assert ProvidedCount(None, None, Some(file)) == 1;
    assert LoadImageFromSource(Bytes(file.contents), lib) == Ok(img);
    assert SelectInput(None, None, Some(file), httpUrl, lib) == Ok(Img(img));
  }

  /** How a single text reaches the client when embedding it fails: an unloaded model is
      a RuntimeError, answered 503 with the "Model runtime error" prefix, and a failing
      `encode` is answered by its class. */
  lemma {:induction false} TextFailureStatuses(f: Fields, t: string, httpUrl: string -> Option<string>, lib: Foreign)
    requires t != ""
    ensures f.model.None? ==>
      GetMultimodalEmbedding(Some(f), Some(t), None, None, httpUrl, lib) ==
      HttpError(503, "Model runtime error: Multimodal model " + f.modelName + " is not loaded properly.")
    ensures f.model.Some? && lib.encode(f.model.value, Str(t)).Err? ==>
      GetMultimodalEmbedding(Some(f), Some(t), None, None, httpUrl, lib) == MapMultimodalError(lib.encode(f.model.value, Str(t)).error)
  {
    assert ProvidedCount(Some(t), None, None) == 1;
    assert SelectInput(Some(t), None, None, httpUrl, lib) == Ok(Str(t));
  }

  /** An image file whose bytes PIL cannot open is a ValueError, answered 400 before the
      model is asked. */
  lemma {:induction false} UndecodableFileRejected(f: Fields, file: Upload, httpUrl: string -> Option<string>, lib: Foreign)
    requires IsImageContentType(file.contentType) && lib.openImage(file.contents).Err?
    ensures GetMultimodalEmbedding(Some(f), None, None, Some(file), httpUrl, lib) ==
      HttpError(400, "Could not open image. Error: " + lib.openImage(file.contents).error.message)
  {
    assert ProvidedCount(None, None, Some(file)) == 1;
    assert SelectInput(None, None, Some(file), httpUrl, lib).Err?;
  }

  /** A URL that `HttpUrl` rejects is answered with 400 before any download: the answer
      does not depend on the network or the model. */
  lemma {:induction false} MalformedUrlRejected(f: Fields, url: string, httpUrl: string -> Option<string>, lib: Foreign)
    requires url != "" && httpUrl(url).None?
    ensures GetMultimodalEmbedding(Some(f), None, Some(url), None, httpUrl, lib) ==
      HttpError(400, "Invalid URL format provided for image_url: " + url)
  {
    assert ProvidedCount(None, Some(url), None) == 1;
    assert EmbedInput(f, None, Some(url), None, httpUrl, lib) == Err(InvalidUrl(url));
  }

  /** A file without an image content type is answered with 400 before its bytes are
      read: the answer does not depend on the contents, the network or the model. */
  lemma {:induction false} NonImageFileRejected(f: Fields, file: Upload, httpUrl: string -> Option<string>, lib: Foreign)
    requires !IsImageContentType(file.contentType)
    ensures GetMultimodalEmbedding(Some(f), None, None, Some(file), httpUrl, lib) ==
      HttpError(400, "Invalid image file type: " + Rendered(file.contentType) + ". Please upload a valid image (e.g., JPEG, PNG).")
  {
    assert ProvidedCount(None, None, Some(file)) == 1;
    assert EmbedInput(f, None, None, Some(file), httpUrl, lib) == Err(InvalidFileType(file.contentType));
  }

  /** Empty form fields do not count: a request with only "" fields and no file is
      rejected as providing none, and one "" field beside a real input does not make two. */
  lemma {:induction false} EmptyFieldsIgnored(f: Fields, t: string, httpUrl: string -> Option<string>, lib: Foreign)
    requires t != ""
    ensures GetMultimodalEmbedding(Some(f), Some(""), Some(""), None, httpUrl, lib) == HttpError(400, EXACTLY_ONE)
    ensures GetMultimodalEmbedding(Some(f), Some(t), Some(""), None, httpUrl, lib) ==
            GetMultimodalEmbedding(Some(f), Some(t), None, None, httpUrl, lib)
  {
    assert ProvidedCount(Some(""), Some(""), None) == 0;
    assert ProvidedCount(Some(t), Some(""), None) == 1;
    assert SelectInput(Some(t), Some(""), None, httpUrl, lib) == SelectInput(Some(t), None, None, httpUrl, lib);
  }

  /** As written, the module-level instance never exists, so every request is answered
      503. */
  lemma {:induction false} AsWrittenAlwaysUnavailable(text: Option<string>, imageUrl: Option<string>, imageFile: Option<Upload>,
                                                      httpUrl: string -> Option<string>, lib: Foreign)
    ensures GetMultimodalEmbedding(DefaultInstance(MultimodalEmbedder, false, lib), text, imageUrl, imageFile, httpUrl, lib) == HttpError(503, UNAVAILABLE)
  {
    DefaultInstanceAbsent(MultimodalEmbedder, false, lib);
  }
}
