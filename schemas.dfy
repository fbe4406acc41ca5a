/** The request and response records of the HTTP API, and what a handler sends back. */
module Schemas {
  import opened Common

  datatype TextRequest = TextRequest(text: string, modelName: Option<string>)

  datatype ImageUrlRequest = ImageUrlRequest(url: string, modelName: Option<string>)

  /** The response body of every embedding endpoint. */
  datatype EmbeddingResponse = EmbeddingResponse(embedding: Vector, modelUsed: string, dim: int)

  /** One entry of a model listing: `model_name`, `model_type`, `description`. */
  datatype ModelInfo = ModelInfo(modelName: string, modelType: string, description: string)

  datatype AvailableModelsResponse = AvailableModelsResponse(models: seq<ModelInfo>)

  /** What a handler sends back: its return value, or the `HTTPException` it raises. */
  datatype Response<+T> = Success(body: T) | HttpError(status: int, detail: string)

  /** An uploaded file: its declared `content_type` (possibly absent) and its bytes. */
  datatype Upload = Upload(contentType: Option<string>, contents: seq<byte>)

  /** The `except ValueError` / `except RuntimeError` / `except Exception` chain of the
      text and image handlers: the first two pass the message on, the last hides it
      behind a fixed detail. */
  function MapStandardError<T>(e: Exc, internalDetail: string): (r: Response<T>)
    ensures r.HttpError?
    ensures e.kind == ValueError ==> r == HttpError(400, e.message)
    ensures e.kind == RuntimeError ==> r == HttpError(503, e.message)
    ensures e.kind != ValueError && e.kind != RuntimeError ==> r == HttpError(500, internalDetail)
  {
    if e.kind == ValueError then HttpError(400, e.message)
    else if e.kind == RuntimeError then HttpError(503, e.message)
    else HttpError(500, internalDetail)
  }
}
