/**
  The image-generation route (app/api/generate-image/route.ts): validates the request,
  looks up the provider configuration of the requested model, optionally appends a
  model-specific enhancement to the prompt, calls the provider once and wraps the
  image as a data URL.

  `MODEL_CONFIG` and `enhancementsByModel` are plain object literals indexed by the
  client's string, so a key is either one of their own properties, a member every
  object inherits from `Object.prototype`, or absent (undefined).
 */
module GenerateImageRoute {
  import opened Wrappers
  import opened Types

  /** The JSON body; `autoEnhance` is read for its truthiness. */
  datatype GenerateRequest = GenerateRequest(prompt: Option<string>, model: Option<string>, autoEnhance: bool)

  /** The provider parameters of one model (the float guidance scale is not modelled). */
  datatype ModelConfig = ModelConfig(modelId: string, width: nat, height: nat, inferenceSteps: nat)

  /** The single request sent to the image provider; `params` is None when it is undefined. */
  datatype ProviderCall = ProviderCall(model: string, prompt: string, params: Option<ModelConfig>)

  /** The provider's answer: a base64 image, or a thrown error. */
  datatype ProviderReply = Image(base64: string) | ProviderError(message: string)

  /** The route's answer. */
  datatype GenerateResponse =
    | Generated(imageData: string)    // 200 { success: true, imageData }
    | MissingFields                   // 400 { error: "Missing required fields" }
    | GenerationFailed(error: string) // 500 { success: false, error }
  {
    function Status(): nat {
      match this
      case Generated(_) => 200
      case MissingFields => 400
      case GenerationFailed(_) => 500
    }
  }

  /** The properties every object literal inherits from `Object.prototype`. */
  const ObjectPrototypeMembers: seq<string> := [
    "constructor", "__defineGetter__", "__defineSetter__", "hasOwnProperty",
    "__lookupGetter__", "__lookupSetter__", "isPrototypeOf", "propertyIsEnumerable",
    "toString", "valueOf", "__proto__", "toLocaleString"
  ]

  /** What `obj[key]` reads on an object literal: an own value, an inherited member, or undefined. */
  datatype Property<T> = Own(value: T) | Inherited(name: string) | Missing

  /** `obj[key]` on the object literal whose own properties are `own`, in source order. */
  function Lookup<T>(own: seq<(string, T)>, key: string): (r: Property<T>)
    ensures r.Own? <==> exists k :: 0 <= k < |own| && own[k].0 == key
    ensures r.Own? ==> (key, r.value) in own
    ensures r.Inherited? <==> (forall k :: 0 <= k < |own| ==> own[k].0 != key) && key in ObjectPrototypeMembers
    ensures r.Inherited? ==> r.name == key
  {
    if own == [] then (if key in ObjectPrototypeMembers then Inherited(key) else Missing)
    else if own[0].0 == key then Own(own[0].1)
    else
      var r := Lookup(own[1..], key);
      assert forall k :: 1 <= k < |own| ==> own[k] == own[1..][k - 1];
      r
  }

  /** `MODEL_CONFIG`. */
  const ModelConfigs: seq<(string, ModelConfig)> := [
    ("iguana-fast", ModelConfig("fast-sdxl", 1024, 1024, 15)),
    ("iguana-sketch", ModelConfig("playground-v25", 1024, 1024, 25)),
    ("iguana-pro", ModelConfig("stable-diffusion-v35-large", 1024, 1024, 50))
  ]

  /** `enhancementsByModel`. */
  const Enhancements: seq<(string, string)> := [
    ("iguana-fast", "high quality, detailed, professional photography, sharp focus"),
    ("iguana-sketch", "detailed sketch, fine lines, professional illustration, concept art"),
    ("iguana-pro", "ultra-realistic, cinematic lighting, 8k resolution, professional photography, detailed textures")
  ]

  /**
    Both tables have an own entry exactly for the identifiers of the model type, and no
    model identifier names an inherited member.
   */
  lemma TableKeys(key: string)
    ensures Lookup(ModelConfigs, key).Own? <==> ParseModelType(key).Some?
    ensures Lookup(Enhancements, key).Own? <==> ParseModelType(key).Some?
    ensures ParseModelType(key).Some? ==> key !in ObjectPrototypeMembers
  {
    assert ModelConfigs[0].0 == Enhancements[0].0 == "iguana-fast";
    assert ModelConfigs[1].0 == Enhancements[1].0 == "iguana-sketch";
    assert ModelConfigs[2].0 == Enhancements[2].0 == "iguana-pro";
    if ParseModelType(key).Some? {
      assert key[0] == 'i' && |key| >= 10;
      forall k | 0 <= k < |ObjectPrototypeMembers| ensures ObjectPrototypeMembers[k] != key {
        var p := ObjectPrototypeMembers[k];
        assert p[0] != 'i' || p[1] != 'g';
      }
    }
  }

  /** `MODEL_CONFIG[m]` for a model type: its own entry. */
  function Config(m: ModelType): (c: ModelConfig)
    ensures Lookup(ModelConfigs, m.Id()) == Own(c)
  {
    TableKeys(m.Id());
    ParseModelTypeId(m);
    Lookup(ModelConfigs, m.Id()).value
  }

  /** The three configurations, all 1024 by 1024. */
  lemma ConfigEntries()
    ensures Config(IguanaFast) == ModelConfig("fast-sdxl", 1024, 1024, 15)
    ensures Config(IguanaSketch) == ModelConfig("playground-v25", 1024, 1024, 25)
    ensures Config(IguanaPro) == ModelConfig("stable-diffusion-v35-large", 1024, 1024, 50)
  {
    assert "iguana-sketch" != "iguana-fast";
    assert "iguana-pro" != "iguana-fast" && "iguana-pro" != "iguana-sketch";
  }

  /** `enhancementsByModel[m]` for a model type: its own entry. */
  function Enhancement(m: ModelType): (e: string)
    ensures Lookup(Enhancements, m.Id()) == Own(e)
  {
    TableKeys(m.Id());
    ParseModelTypeId(m);
    Lookup(Enhancements, m.Id()).value
  }

  /** The three enhancement texts. */
  lemma EnhancementEntries()
    ensures Enhancement(IguanaFast) == "high quality, detailed, professional photography, sharp focus"
    ensures Enhancement(IguanaSketch) == "detailed sketch, fine lines, professional illustration, concept art"
    ensures Enhancement(IguanaPro)
         == "ultra-realistic, cinematic lighting, 8k resolution, professional photography, detailed textures"
  {
    assert "iguana-sketch" != "iguana-fast";
    assert "iguana-pro" != "iguana-fast" && "iguana-pro" != "iguana-sketch";
  }

  /** How a template literal prints an inherited member: a native function, or `Object.prototype` itself. */
  function InheritedText(name: string): string {
    if name == "__proto__" then "[object Object]"
    else if name == "constructor" then "function Object() { [native code] }"
    else "function " + name + "() { [native code] }"
  }

  /** `${obj[key]}` for a string-valued object literal. */
  function TemplateText(p: Property<string>): string {
    match p
    case Own(s) => s
    case Inherited(name) => InheritedText(name)
    case Missing => "undefined"
  }

  /**
    The prompt sent to the provider: the typed prompt, kept as a prefix, followed with
    auto-enhance on by the printed table entry of the key in parentheses.
   */
  function EnhancedPrompt(prompt: string, key: string, autoEnhance: bool): (r: string)
    ensures prompt <= r
    ensures r[|prompt|..] == if autoEnhance then " (" + TemplateText(Lookup(Enhancements, key)) + ")" else ""
  {
    if autoEnhance then
      var suffix := " (" + TemplateText(Lookup(Enhancements, key)) + ")";
      assert (prompt + suffix)[|prompt|..] == suffix;
      prompt + suffix
    else
      prompt
  }

  /** `${modelConfig.modelId}`: an inherited member has no `modelId`, which prints as "undefined". */
  function ModelIdText(entry: Property<ModelConfig>): string {
    if entry.Own? then entry.value.modelId else "undefined"
  }

  /** `modelConfig.params`, None when it is undefined. */
  function ParamsOf(entry: Property<ModelConfig>): Option<ModelConfig> {
    if entry.Own? then Some(entry.value) else None
  }

  /** The provider's model path for a model type. */
  function ProviderModel(m: ModelType): string {
    "fal-ai/" + Config(m).modelId
  }

  const DataUrlPrefix: string := "data:image/png;base64,"

  /** The message of the TypeError raised when reading `modelId` of an undefined configuration. */
  const UnknownModelMessage: string := "Cannot read properties of undefined (reading 'modelId')"

  /**
    Handles one request. Returns the answer and the provider call made, None when the
    provider is not called. A key with no property at all has an undefined configuration,
    so reading its `modelId` throws before the provider call and the answer is a 500; a key
    naming an inherited member reaches the provider.
   */
  function Handle(req: GenerateRequest, reply: ProviderReply): (r: (GenerateResponse, Option<ProviderCall>))
    ensures !Truthy(req.prompt) || !Truthy(req.model) ==> r == (MissingFields, None)
    ensures r.1.Some? <==>
      && Truthy(req.prompt) && Truthy(req.model)
      && (ParseModelType(req.model.value).Some? || req.model.value in ObjectPrototypeMembers)
    ensures r.1.Some? ==> r.1.value.prompt == EnhancedPrompt(req.prompt.value, req.model.value, req.autoEnhance)
    ensures Truthy(req.prompt) && Truthy(req.model) && r.1.None? ==> r.0 == GenerationFailed(UnknownModelMessage)
    ensures r.0.Generated? ==> r.1.Some? && reply.Image? && r.0.imageData == DataUrlPrefix + reply.base64
    ensures r.1.Some? && reply.Image? ==> r.0.Generated?
    ensures r.1.Some? && reply.ProviderError? ==> r.0 == GenerationFailed(reply.message)
  {
    if !Truthy(req.prompt) || !Truthy(req.model) then (MissingFields, None)
    else
      var key := req.model.value;
      TableKeys(key);
      var entry := Lookup(ModelConfigs, key);
      if entry.Missing? then (GenerationFailed(UnknownModelMessage), None)
      else
        var call := ProviderCall("fal-ai/" + ModelIdText(entry), EnhancedPrompt(req.prompt.value, key, req.autoEnhance),
                                 ParamsOf(entry));
        match reply
        case Image(b64) => (Generated(DataUrlPrefix + b64), Some(call))
        case ProviderError(msg) => (GenerationFailed(msg), Some(call))
  }

  /** The provider sees the model's configured path and parameters and the (possibly enhanced) prompt. */
  lemma ProviderCallFor(req: GenerateRequest, m: ModelType, reply: ProviderReply)
    requires Truthy(req.prompt) && req.model == Some(m.Id())
    ensures Handle(req, reply).1 == Some(ProviderCall("fal-ai/" + Config(m).modelId,
                                          EnhancedPrompt(req.prompt.value, m.Id(), req.autoEnhance), Some(Config(m))))
  {
    ParseModelTypeId(m);
  }

  /** With auto-enhance on, a known model's prompt is followed by its own enhancement in parentheses. */
  lemma EnhancedPromptFor(prompt: string, m: ModelType)
    ensures EnhancedPrompt(prompt, m.Id(), false) == prompt
    ensures EnhancedPrompt(prompt, m.Id(), true) == prompt + " (" + Enhancement(m) + ")"
  {
  }

  /**
    A key naming an inherited member reaches the provider as model "fal-ai/undefined" with
    undefined parameters; with auto-enhance on, the member's printed form joins the prompt.
   */
  lemma InheritedKeyReachesProvider(req: GenerateRequest, reply: ProviderReply)
    requires Truthy(req.prompt) && req.model.Some? && req.model.value in ObjectPrototypeMembers
    ensures Handle(req, reply).1 == Some(ProviderCall("fal-ai/undefined",
      if req.autoEnhance then req.prompt.value + " (" + InheritedText(req.model.value) + ")" else req.prompt.value,
      None))
  {
    var key := req.model.value;
    TableKeys(key);
    assert Lookup(ModelConfigs, key) == Inherited(key);
    assert "fal-ai/" + ModelIdText(Inherited(key)) == "fal-ai/undefined";
    InheritedEnhancement(req.prompt.value, key, req.autoEnhance);
  }

  /** The prompt an inherited key gets: the member's printed form in parentheses, with the flag on. */
  lemma InheritedEnhancement(prompt: string, key: string, autoEnhance: bool)
    requires key in ObjectPrototypeMembers
    ensures EnhancedPrompt(prompt, key, autoEnhance)
         == if autoEnhance then prompt + " (" + InheritedText(key) + ")" else prompt
  {
    TableKeys(key);
    assert TemplateText(Lookup(Enhancements, key)) == InheritedText(key);
  }

  /** A key with no property at all is a 500 with `success: false`, and the provider is not called. */
  lemma UnknownModelFails(req: GenerateRequest, reply: ProviderReply)
    requires Truthy(req.prompt) && Truthy(req.model)
    requires ParseModelType(req.model.value).None? && req.model.value !in ObjectPrototypeMembers
    ensures Handle(req, reply) == (GenerationFailed(UnknownModelMessage), None)
    ensures Handle(req, reply).0.Status() == 500
  {
  }
}
