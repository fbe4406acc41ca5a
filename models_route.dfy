/** `GET /models`: the listing of the three module-level instances the models route
    builds at import, slot by slot. */
module ModelsRoute {
  import opened Common
  import opened Schemas
  import opened Embedders

  /** The entry for one slot: present exactly when its instance exists, with the slot's
      fixed type whatever the instance holds. */
  function SlotEntry(instance: Option<Fields>, c: EmbedderClass): (entry: seq<ModelInfo>)
    ensures |entry| == if instance.Some? then 1 else 0
    ensures instance.Some? ==> entry[0] == ModelInfo(instance.value.modelName, ModelTypeName(c), ClassDescription(c).GetOr("N/A"))
  {
    match instance
    case None => []
    case Some(f) => [ModelInfo(f.modelName, ModelTypeName(c), ClassDescription(c).GetOr("N/A"))]
  }

  /** The listing the handler builds, as one value. */
  function Listing(text: Option<Fields>, image: Option<Fields>, multimodal: Option<Fields>): seq<ModelInfo> {
    SlotEntry(text, TextEmbedder) + SlotEntry(image, ImageEmbedder) + SlotEntry(multimodal, MultimodalEmbedder)
  }

  /** `list_available_models_v1`: one conditional `append` per slot; an empty list is
      returned normally. */
  method ListAvailableModels(text: Option<Fields>, image: Option<Fields>, multimodal: Option<Fields>) returns (r: AvailableModelsResponse)
    ensures r.models == Listing(text, image, multimodal)
  {
    var models: seq<ModelInfo> := [];
    if text.Some? {
      models := models + [ModelInfo(text.value.modelName, "text", ClassDescription(TextEmbedder).GetOr("N/A"))];
    }
    if image.Some? {
      models := models + [ModelInfo(image.value.modelName, "image", ClassDescription(ImageEmbedder).GetOr("N/A"))];
    }
    if multimodal.Some? {
      models := models + [ModelInfo(multimodal.value.modelName, "multimodal", ClassDescription(MultimodalEmbedder).GetOr("N/A"))];
    }
    r := AvailableModelsResponse(models);
  }

  /** The position of each type in the listing order. */
  function TypeRank(t: string): int {
    if t == "text" then 0 else if t == "image" then 1 else if t == "multimodal" then 2 else 3
  }

  lemma {:induction false} RankOfSlotType(c: EmbedderClass)
    ensures TypeRank(ModelTypeName(c)) == match c case TextEmbedder => 0 case ImageEmbedder => 1 case MultimodalEmbedder => 2
  {
    assert "image"[0] != "text"[0] && "multimodal"[0] != "text"[0] && "multimodal"[0] != "image"[0];
  }

  function Present(o: Option<Fields>): nat {
    if o.Some? then 1 else 0
  }

  /** One entry per existing instance, so at most three, and none exactly when no
      instance exists. */
  lemma ListingSize(text: Option<Fields>, image: Option<Fields>, multimodal: Option<Fields>)
    ensures var l := Listing(text, image, multimodal);
      && |l| == Present(text) + Present(image) + Present(multimodal) <= 3
      && (l == [] <==> text.None? && image.None? && multimodal.None?)
  {
  }

  /** The rank of each entry is fixed by the slots present before it. */
  lemma {:induction false} ListingRanks(text: Option<Fields>, image: Option<Fields>, multimodal: Option<Fields>)
    ensures var l := Listing(text, image, multimodal);
      forall i :: 0 <= i < |l| ==>
        TypeRank(l[i].modelType) == if i < Present(text) then 0 else if i < Present(text) + Present(image) then 1 else 2
  {
    var a, b, c := SlotEntry(text, TextEmbedder), SlotEntry(image, ImageEmbedder), SlotEntry(multimodal, MultimodalEmbedder);
    var l := a + b + c;
    RankOfSlotType(TextEmbedder);
    RankOfSlotType(ImageEmbedder);
    RankOfSlotType(MultimodalEmbedder);
    forall i | 0 <= i < |l|
      ensures TypeRank(l[i].modelType) == if i < |a| then 0 else if i < |a| + |b| then 1 else 2
    {
      if i < |a| {
        assert l[i] == a[i];
      } else if i < |a| + |b| {
        assert l[i] == b[i - |a|];
      } else {
        assert l[i] == c[i - |a| - |b|];
      }
    }
  }

  /** Entries come in the order text, image, multimodal. */
  lemma {:induction false} ListingOrdered(text: Option<Fields>, image: Option<Fields>, multimodal: Option<Fields>)
    ensures var l := Listing(text, image, multimodal);
      forall i, j :: 0 <= i < j < |l| ==> TypeRank(l[i].modelType) < TypeRank(l[j].modelType)
  {
    ListingRanks(text, image, multimodal);
    ListingSize(text, image, multimodal);
  }

  /** Each existing instance's entry sits after the entries of the slots before it and
      carries the instance's name and the slot's type. */
  lemma {:induction false} ListingPositions(text: Option<Fields>, image: Option<Fields>, multimodal: Option<Fields>)
    ensures var l := Listing(text, image, multimodal);
      && |l| == Present(text) + Present(image) + Present(multimodal)
      && (text.Some? ==> l[0] == ModelInfo(text.value.modelName, "text", ClassDescription(TextEmbedder).value))
      && (image.Some? ==> l[Present(text)] == ModelInfo(image.value.modelName, "image", ClassDescription(ImageEmbedder).value))
      && (multimodal.Some? ==>
            l[Present(text) + Present(image)] ==
            ModelInfo(multimodal.value.modelName, "multimodal", ClassDescription(MultimodalEmbedder).value))
  {
    var a, b, c := SlotEntry(text, TextEmbedder), SlotEntry(image, ImageEmbedder), SlotEntry(multimodal, MultimodalEmbedder);
    assert Listing(text, image, multimodal) == a + b + c;
    if image.Some? {
      assert (a + b + c)[|a|] == b[0];
    }
    if multimodal.Some? {
      assert (a + b + c)[|a| + |b|] == c[0];
    }
  }

  /** Every description is the class attribute: none of the three falls back to "N/A". */
  lemma ListingDescriptions(text: Option<Fields>, image: Option<Fields>, multimodal: Option<Fields>)
    ensures forall e :: e in Listing(text, image, multimodal) ==> e.description != "N/A"
  {
  }

  /** As written, none of the three instances exists and the listing is empty. */
  lemma {:induction false} AsWrittenListingEmpty(lib: Foreign)
    ensures Listing(DefaultInstance(TextEmbedder, false, lib), DefaultInstance(ImageEmbedder, false, lib), DefaultInstance(MultimodalEmbedder, false, lib)) == []
  {
    DefaultInstanceAbsent(TextEmbedder, false, lib);
    DefaultInstanceAbsent(ImageEmbedder, false, lib);
    DefaultInstanceAbsent(MultimodalEmbedder, false, lib);
  }
}
