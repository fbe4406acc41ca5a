/** The lazy model registry: a fixed table from API model names to embedder classes
    (`REGISTERED_MODELS`) and a cache of the instances built so far (`LOADED_MODELS`).

    Instances are built with the corrected embedder constructor (`Embedder.InitFixed`);
    with the constructor as written every construction raises, and the registry's
    behaviour is then the behaviour below on a constructor that always fails. */
module Registry {
  import opened Common
  import opened Schemas
  import opened Embedders

  /** `REGISTERED_MODELS`, in insertion order. */
  const REGISTERED_MODELS: seq<(string, EmbedderClass)> := [("all-MiniLM-L6-v2", TextEmbedder), ("ViT-B/32", ImageEmbedder)]

  const LOAD_ERROR_PREFIX := "Error loading/initializing: "

  /** `REGISTERED_MODELS[name]`, when the key is there. */
  function RegisteredClass(name: string): (r: Option<EmbedderClass>)
    ensures r.Some? <==> exists i :: 0 <= i < |REGISTERED_MODELS| && REGISTERED_MODELS[i].0 == name
    ensures forall i :: 0 <= i < |REGISTERED_MODELS| && REGISTERED_MODELS[i].0 == name ==> r == Some(REGISTERED_MODELS[i].1)
  {
    if name == REGISTERED_MODELS[0].0 then Some(REGISTERED_MODELS[0].1)
    else if name == REGISTERED_MODELS[1].0 then Some(REGISTERED_MODELS[1].1)
    else None
  }

  function NotRegistered(name: string): Exc {
    Exc(ValueError, "Model '" + name + "' is not registered.")
  }

  /** `sub` occurs in `s` starting at index `i`. */
  predicate OccursAt(s: string, sub: string, i: int) {
    0 <= i <= |s| - |sub| && s[i..i + |sub|] == sub
  }

  /** Python's `sub in s` on strings. */
  predicate Contains(s: string, sub: string) {
    exists i | 0 <= i <= |s| - |sub| :: OccursAt(s, sub, i)
  }

  /** No character of `s` is `ch`. */
  predicate Lacks(s: string, ch: char) {
    forall j :: 0 <= j < |s| ==> s[j] != ch
  }

  lemma LacksConcat(a: string, b: string, ch: char)
    requires Lacks(a, ch) && Lacks(b, ch)
    ensures Lacks(a + b, ch)
  {
  }

  /** A string that lacks one of the characters of `sub` cannot contain `sub`. */
  lemma {:induction false} MissingCharExcludes(s: string, sub: string, k: int)
    requires 0 <= k < |sub| && Lacks(s, sub[k])
    ensures !Contains(s, sub)
  {
    forall i | 0 <= i <= |s| - |sub|
      ensures !OccursAt(s, sub, i)
    {
      assert s[i..i + |sub|][k] == s[i + k];
    }
  }

  lemma {:induction false} OccursBetween(p: string, sub: string, q: string)
    ensures OccursAt(p + sub + q, sub, |p|)
  {
    assert (p + sub + q)[|p|..|p| + |sub|] == sub;
  }

  /** The `model_type` of a fallback listing entry: the class attribute when there is
      one, otherwise guessed from the class's `str`. */
  function GuessModelType(classAttribute: Option<string>, classRepr: string): (t: string)
    ensures classAttribute.Some? ==> t == classAttribute.value
    ensures classAttribute.None? && Contains(classRepr, "TextEmbedder") ==> t == "text"
    ensures classAttribute.None? && !Contains(classRepr, "TextEmbedder") && Contains(classRepr, "ImageEmbedder") ==> t == "image"
    ensures classAttribute.None? && !Contains(classRepr, "TextEmbedder") && !Contains(classRepr, "ImageEmbedder") ==> t == "unknown"
  {
    if classAttribute.Some? then classAttribute.value
    else if Contains(classRepr, "TextEmbedder") then "text"
    else if Contains(classRepr, "ImageEmbedder") then "image"
    else "unknown"
  }

  /** The guess for one of the embedder classes. */
  function FallbackModelType(c: EmbedderClass): string {
    GuessModelType(ClassModelTypeAttribute(c), ClassRepr(c))
  }

  /** The guess agrees with the real `model_type` for the text and image classes, and
      gives "unknown" to the multimodal class. */
  lemma {:induction false} FallbackModelTypes()
    ensures FallbackModelType(TextEmbedder) == ModelTypeName(TextEmbedder) == "text"
    ensures FallbackModelType(ImageEmbedder) == ModelTypeName(ImageEmbedder) == "image"
    ensures FallbackModelType(MultimodalEmbedder) == "unknown"
  {
    var prefix := "<class 'app.models.";
    OccursBetween(prefix + "text_embedder" + ".", "TextEmbedder", "'>");
    OccursBetween(prefix + "image_embedder" + ".", "ImageEmbedder", "'>");
    assert Lacks(prefix, 'T') && Lacks(prefix, 'I') && Lacks(".", 'T') && Lacks(".", 'I');
    assert Lacks("'>", 'T') && Lacks("'>", 'I');
    assert Lacks("image_embedder", 'T') && Lacks("ImageEmbedder", 'T');
    LacksConcat(prefix, "image_embedder", 'T');
    LacksConcat(prefix + "image_embedder", ".", 'T');
    LacksConcat(prefix + "image_embedder" + ".", "ImageEmbedder", 'T');
    LacksConcat(prefix + "image_embedder" + "." + "ImageEmbedder", "'>", 'T');
    MissingCharExcludes(ClassRepr(ImageEmbedder), "TextEmbedder", 0);
    assert Lacks("multimodal_embedder", 'T') && Lacks("MultimodalEmbedder", 'T');
    assert Lacks("multimodal_embedder", 'I') && Lacks("MultimodalEmbedder", 'I');
    LacksConcat(prefix, "multimodal_embedder", 'T');
    LacksConcat(prefix + "multimodal_embedder", ".", 'T');
    LacksConcat(prefix + "multimodal_embedder" + ".", "MultimodalEmbedder", 'T');
    LacksConcat(prefix + "multimodal_embedder" + "." + "MultimodalEmbedder", "'>", 'T');
    LacksConcat(prefix, "multimodal_embedder", 'I');
    LacksConcat(prefix + "multimodal_embedder", ".", 'I');
    LacksConcat(prefix + "multimodal_embedder" + ".", "MultimodalEmbedder", 'I');
    LacksConcat(prefix + "multimodal_embedder" + "." + "MultimodalEmbedder", "'>", 'I');
    MissingCharExcludes(ClassRepr(MultimodalEmbedder), "TextEmbedder", 0);
    MissingCharExcludes(ClassRepr(MultimodalEmbedder), "ImageEmbedder", 0);
  }

  /** The listing entry for a registered name whose instance could not be obtained. */
  function FallbackInfo(name: string, c: EmbedderClass, e: Exc): (info: ModelInfo)
    ensures info.modelName == name && info.modelType == FallbackModelType(c)
    ensures |info.description| >= |LOAD_ERROR_PREFIX| && info.description[..|LOAD_ERROR_PREFIX|] == LOAD_ERROR_PREFIX
    ensures info.description[|LOAD_ERROR_PREFIX|..] == e.message
  {
    ModelInfo(name, FallbackModelType(c), LOAD_ERROR_PREFIX + e.message)
  }

  /** The listing entry for a cached instance: `get_model_info()` of an instance the
      registry built, whose `model_name` is its key. */
  function LoadedInfo(name: string, c: EmbedderClass): (info: ModelInfo)
    ensures info.modelName == name && info.modelType == ModelTypeName(c)
    ensures info.description == ClassDescription(c).value
  {
    ModelInfo(name, ModelTypeName(c), ClassDescription(c).GetOr("N/A"))
  }

  /** What the registry's constructor call `EmbedderClass(model_name=name)` does on a
      fresh instance. */
  function Construction(c: EmbedderClass, name: string, lib: Foreign): (r: Step)
    ensures r.fields.modelName == name && r.fields.modelType == ModelTypeName(c)
    ensures r.fields.modelCacheDir == Some(DEFAULT_MODEL_CACHE_DIR)
    ensures r.outcome.Pass? ==> r.fields.model.Some?
  {
    AfterInitFixed(c, BLANK, name, DEFAULT_MODEL_CACHE_DIR, lib)
  }

  /** A registry instance built for `name` answers `get_model_info` with the registry's
      key and its class's type and description. */
  lemma {:induction false} ConstructedInfo(c: EmbedderClass, name: string, lib: Foreign)
    ensures var s := Construction(c, name, lib);
      s.fields.modelName == name && s.fields.modelType == ModelTypeName(c) &&
      GetModelInfo(c, s.fields) == LoadedInfo(name, c)
  {
    FixedBaseLoadsNamedModel(c, BLANK.(dimension := 0), name, ModelTypeName(c), DEFAULT_MODEL_CACHE_DIR, lib);
    FixedBaseLoadsNamedModel(c, BLANK.(device := DeviceName(lib), dimension := 0, processor := None), name, ModelTypeName(c), DEFAULT_MODEL_CACHE_DIR, lib);
  }

  /** The registry's constructor call succeeds. */
  predicate Builds(c: EmbedderClass, name: string, lib: Foreign) {
    Construction(c, name, lib).outcome.Pass?
  }

  /** `EmbedderClass(model_name=name)`: a new instance, or the exception its
      constructor raised. */
  method Construct(c: EmbedderClass, name: string, lib: Foreign) returns (r: Result<Embedder, Exc>)
    ensures r.Ok? <==> Builds(c, name, lib)
    ensures r.Err? ==> r.error == Construction(c, name, lib).outcome.error
    ensures r.Ok? ==>
      && fresh(r.value) && r.value.cls == c && r.value.Snapshot() == Construction(c, name, lib).fields
      && r.value.modelName == name && r.value.modelType == ModelTypeName(c)
  {
    var e := new Embedder(c);
    var outcome := e.InitFixed(name, DEFAULT_MODEL_CACHE_DIR, lib);
    ConstructedInfo(c, name, lib);
    if outcome.Fail? {
      return Err(outcome.error);
    }
    r := Ok(e);
  }

  /** The entry `get_available_models_info` lists for registered name `n` of class `c`
      when `n` was cached beforehand or not. */
  function ListedInfo(cached: bool, n: string, c: EmbedderClass, lib: Foreign): (info: ModelInfo)
    ensures info.modelName == n
    ensures cached || Builds(c, n, lib) ==> info == LoadedInfo(n, c)
    ensures !cached && !Builds(c, n, lib) ==> info == FallbackInfo(n, c, Construction(c, n, lib).outcome.error)
  {
    if cached || Builds(c, n, lib) then LoadedInfo(n, c)
    else FallbackInfo(n, c, Construction(c, n, lib).outcome.error)
  }

  lemma RegisteredNamesDistinct()
    ensures forall i, j :: 0 <= i < j < |REGISTERED_MODELS| ==> REGISTERED_MODELS[i].0 != REGISTERED_MODELS[j].0
  {
  }

  class ModelRegistry {
    /** `LOADED_MODELS` */
    var loaded: map<string, Embedder>
    /** The name of every constructor call so far, in order. */
    ghost var constructed: seq<string>

    /** Only registered names are cached, each under an instance of its registered class
        built for that name. */
    ghost predicate Valid()
      reads this, loaded.Values
    {
      forall n :: n in loaded ==>
        && RegisteredClass(n).Some? && loaded[n].cls == RegisteredClass(n).value
        && loaded[n].modelName == n && loaded[n].modelType == ModelTypeName(loaded[n].cls)
    }

    /** Module import: nothing is loaded yet. */
    constructor ()
      ensures Valid() && loaded == map[] && constructed == []
    {
      loaded := map[];
      constructed := [];
    }

    /** `get_embedder_instance(model_name)` */
    method GetEmbedderInstance(name: string, lib: Foreign) returns (r: Result<Embedder, Exc>)
      requires Valid()
      modifies this
      ensures Valid()
      ensures RegisteredClass(name).None? ==>
        r == Err(NotRegistered(name)) && loaded == old(loaded) && constructed == old(constructed)
      ensures name in old(loaded) ==>
        r == Ok(old(loaded)[name]) && loaded == old(loaded) && constructed == old(constructed)
      ensures RegisteredClass(name).Some? && name !in old(loaded) ==>
        var c := RegisteredClass(name).value;
        && constructed == old(constructed) + [name]
        && (!Builds(c, name, lib) ==> r == Err(Construction(c, name, lib).outcome.error) && loaded == old(loaded))
        && (Builds(c, name, lib) ==>
              r.Ok? && fresh(r.value) && r.value.cls == c &&
              r.value.Snapshot() == Construction(c, name, lib).fields && loaded == old(loaded)[name := r.value])
      ensures r.Ok? ==> name in loaded && r.value == loaded[name]
      ensures loaded - {name} == old(loaded) - {name}
      ensures forall n :: n in old(loaded) ==> n in loaded && loaded[n] == old(loaded)[n]
      ensures RegisteredClass(name).Some? ==>
        (name in loaded <==> name in old(loaded) || Builds(RegisteredClass(name).value, name, lib))
    {
      var c := RegisteredClass(name);
      if c.None? {
        return Err(NotRegistered(name));
      }
      if name !in loaded {
        var built := Construct(c.value, name, lib);
        constructed := constructed + [name];
        if built.Err? {
          return Err(built.error);
        }
        loaded := loaded[name := built.value];
      }
      r := Ok(loaded[name]);
    }

    /** `get_available_models_info()`: one entry per registered name, in registration
        order; a name whose instance cannot be obtained gets a fallback entry. As with
        `preload_models`, every registered name that builds is cached afterwards and
        every one that fails is not. */
    method GetAvailableModelsInfo(lib: Foreign) returns (infos: seq<ModelInfo>)
      requires Valid()
      modifies this
      ensures Valid()
      ensures forall n :: n in old(loaded) ==> n in loaded && loaded[n] == old(loaded)[n]
      ensures |infos| == |REGISTERED_MODELS|
      ensures forall i :: 0 <= i < |infos| ==>
        infos[i] == ListedInfo(REGISTERED_MODELS[i].0 in old(loaded), REGISTERED_MODELS[i].0, REGISTERED_MODELS[i].1, lib)
      ensures forall i :: 0 <= i < |REGISTERED_MODELS| ==>
        var (n, c) := REGISTERED_MODELS[i];
        n in loaded <==> n in old(loaded) || Builds(c, n, lib)
      ensures loaded.Keys <= old(loaded).Keys + set i | 0 <= i < |REGISTERED_MODELS| :: REGISTERED_MODELS[i].0
    {
      RegisteredNamesDistinct();
      infos := [];
      var i := 0;
      while i < |REGISTERED_MODELS|
        invariant 0 <= i <= |REGISTERED_MODELS|
        invariant Valid()
        invariant forall n :: n in old(loaded) ==> n in loaded && loaded[n] == old(loaded)[n]
        invariant forall k :: i <= k < |REGISTERED_MODELS| && REGISTERED_MODELS[k].0 !in old(loaded) ==> REGISTERED_MODELS[k].0 !in loaded
        invariant |infos| == i
        invariant forall k :: 0 <= k < i ==>
          infos[k] == ListedInfo(REGISTERED_MODELS[k].0 in old(loaded), REGISTERED_MODELS[k].0, REGISTERED_MODELS[k].1, lib)
        invariant forall k :: 0 <= k < i ==>
          var (n, c) := REGISTERED_MODELS[k];
          n in loaded <==> n in old(loaded) || Builds(c, n, lib)
        invariant loaded.Keys <= old(loaded).Keys + set k | 0 <= k < i :: REGISTERED_MODELS[k].0
      {
        var (name, c) := REGISTERED_MODELS[i];
        ghost var cached := name in loaded;
        var r := GetEmbedderInstance(name, lib);
        var info;
        if r.Ok? {
          info := GetModelInfo(r.value.cls, r.value.Snapshot());
          assert info == LoadedInfo(name, c);
        } else {
          info := FallbackInfo(name, c, r.error);
        }
        assert info == ListedInfo(cached, name, c, lib);
        infos := infos + [info];
        i := i + 1;
      }
    }

    /** `preload_models()`: every registered name not yet cached is constructed once, and
        a failure is swallowed. Afterwards a registered name is cached exactly when it
        was cached before or its constructor returned. */
    method PreloadModels(lib: Foreign)
      requires Valid()
      modifies this
      ensures Valid()
      ensures forall n :: n in old(loaded) ==> n in loaded && loaded[n] == old(loaded)[n]
      ensures forall i :: 0 <= i < |REGISTERED_MODELS| ==>
        var (n, c) := REGISTERED_MODELS[i];
        n in loaded <==> n in old(loaded) || Builds(c, n, lib)
      ensures loaded.Keys <= old(loaded).Keys + set i | 0 <= i < |REGISTERED_MODELS| :: REGISTERED_MODELS[i].0
    {
      RegisteredNamesDistinct();
      var i := 0;
      while i < |REGISTERED_MODELS|
        invariant 0 <= i <= |REGISTERED_MODELS|
        invariant Valid()
        invariant forall n :: n in old(loaded) ==> n in loaded && loaded[n] == old(loaded)[n]
        invariant forall k :: i <= k < |REGISTERED_MODELS| && REGISTERED_MODELS[k].0 !in old(loaded) ==> REGISTERED_MODELS[k].0 !in loaded
        invariant forall k :: 0 <= k < i ==>
          var (n, c) := REGISTERED_MODELS[k];
          n in loaded <==> n in old(loaded) || Builds(c, n, lib)
        invariant loaded.Keys <= old(loaded).Keys + set k | 0 <= k < i :: REGISTERED_MODELS[k].0
      {
        var _ := GetEmbedderInstance(REGISTERED_MODELS[i].0, lib);
        i := i + 1;
      }
    }
  }
}
