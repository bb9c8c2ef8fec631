/**
 * The static model registry: the closed set of providers, the six model
 * identifiers, the identifier-to-configuration table and the two
 * distinguished identifiers used by the fallback chain.
 */
module Registry {
  import opened Wrappers

  /** The backend families. The set is closed: exactly two members. */
  datatype LlmProvider = Gemini | Ollama

  /** The six model identifiers the service knows about. */
  datatype LlmModel =
    | Gemini25Pro
    | Gemini25Flash
    | Gemini25FlashLite
    | Llama32
    | Llama31
    | Mistral
  {
    /** The identifier string this enum member stands for. */
    function Id(): string {
      match this
      case Gemini25Pro => "gemini-2.5-pro"
      case Gemini25Flash => "gemini-2.5-flash"
      case Gemini25FlashLite => "gemini-2.5-flash-lite"
      case Llama32 => "llama3.2"
      case Llama31 => "llama3.1"
      case Mistral => "mistral"
    }
  }

  /** Where a model identifier is served, and under which model name. */
  datatype ModelConfig = ModelConfig(provider: LlmProvider, modelName: string)

  /** The registry table, keyed by model identifier. */
  const MODEL_PROVIDER_MAP: map<string, ModelConfig> := map[
    Gemini25Pro.Id() := ModelConfig(Gemini, Gemini25Pro.Id()),
    Gemini25Flash.Id() := ModelConfig(Gemini, Gemini25Flash.Id()),
    Gemini25FlashLite.Id() := ModelConfig(Gemini, Gemini25FlashLite.Id()),
    Llama32.Id() := ModelConfig(Ollama, Llama32.Id()),
    Llama31.Id() := ModelConfig(Ollama, Llama31.Id()),
    Mistral.Id() := ModelConfig(Ollama, Mistral.Id())
  ]

  /** First hop of the fallback chain, and the model used when none is requested. */
  const DEFAULT_MODEL: string := Gemini25Flash.Id()

  /** Last hop of the fallback chain, served by the other provider. */
  const FALLBACK_MODEL: string := Llama32.Id()

  /** Reference reading of the table's grouping: the hosted models are the `gemini-` ones. */
  predicate IsGeminiName(id: string) {
    |id| >= 7 && id[..7] == "gemini-"
  }

  /**
   * Resolves a model identifier, reading only the table's own entries.
   * Unknown identifiers give `None`; the caller decides what to do.
   */
  function Lookup(id: string): (r: Option<ModelConfig>)
    ensures r.Some? <==> exists m: LlmModel :: m.Id() == id
    ensures r.Some? ==> r.value.modelName == id
  {
    if id in MODEL_PROVIDER_MAP then Some(MODEL_PROVIDER_MAP[id]) else None
  }

  /**
   * The table groups by family: the three `gemini-` identifiers are served by
   * Gemini, the other three (`llama3.2`, `llama3.1`, `mistral`) by Ollama.
   */
  lemma {:induction false} ProviderFollowsFamily(id: string)
    requires Lookup(id).Some?
    ensures Lookup(id).value.provider == Gemini <==> IsGeminiName(id)
  {
    var m: LlmModel :| m.Id() == id;
    match m
    case Gemini25Pro => assert id[..7] == "gemini-";
    case Gemini25Flash => assert id[..7] == "gemini-";
    case Gemini25FlashLite => assert id[..7] == "gemini-";
    case Llama32 => assert id[0] != "gemini-"[0];
    case Llama31 => assert id[0] != "gemini-"[0];
    case Mistral => assert id[0] != "gemini-"[0];
  }

  /** The table has exactly six keys, one per enum member. */
  lemma RegistryHasSixKeys()
    ensures |MODEL_PROVIDER_MAP| == 6
    ensures forall id :: id in MODEL_PROVIDER_MAP ==> MODEL_PROVIDER_MAP[id].modelName == id
  {
  }

  /** Both distinguished identifiers resolve, and to different providers. */
  lemma DefaultAndFallbackResolve()
    ensures Lookup(DEFAULT_MODEL) == Some(ModelConfig(Gemini, "gemini-2.5-flash"))
    ensures Lookup(FALLBACK_MODEL) == Some(ModelConfig(Ollama, "llama3.2"))
    ensures Lookup(DEFAULT_MODEL).value.provider != Lookup(FALLBACK_MODEL).value.provider
  {
  }

  // The table is a plain JavaScript object literal, and the service indexes it
  // with a caller-supplied string. Such an object also answers for the names it
  // inherits from Object.prototype, so the lookup as written is not `Lookup`.

  /** The property names every plain JavaScript object inherits. */
  const OBJECT_PROTOTYPE_NAMES: set<string> := {
    "constructor", "__proto__", "hasOwnProperty", "isPrototypeOf",
    "propertyIsEnumerable", "toLocaleString", "toString", "valueOf",
    "__defineGetter__", "__defineSetter__", "__lookupGetter__", "__lookupSetter__"
  }

  /** What indexing the object literal yields: an own entry, an inherited member, or `undefined`. */
  datatype PropertyRead = Own(config: ModelConfig) | Inherited | Undefined

  /** `MODEL_PROVIDER_MAP[id]` as the JavaScript runtime evaluates it. */
  function IndexAsWritten(id: string): (r: PropertyRead)
    ensures r.Own? <==> Lookup(id).Some?
    ensures r.Own? ==> Lookup(id) == Some(r.config)
  {
    if id in MODEL_PROVIDER_MAP then Own(MODEL_PROVIDER_MAP[id])
    else if id in OBJECT_PROTOTYPE_NAMES then Inherited
    else Undefined
  }

  /** JavaScript truthiness of the read: only `undefined` is falsy here. */
  predicate Truthy(r: PropertyRead) {
    !r.Undefined?
  }

  /** The provider field of the read; an inherited member has none (`undefined`). */
  function ProviderOf(r: PropertyRead): Option<LlmProvider> {
    if r.Own? then Some(r.config.provider) else None
  }

  /**
   * An inherited name is not a registry key, yet it passes the unknown-model
   * guard (the read is truthy) and carries no provider.
   */
  lemma InheritedNamePassesUnknownGuard(id: string)
    requires id in OBJECT_PROTOTYPE_NAMES
    ensures Lookup(id).None?
    ensures Truthy(IndexAsWritten(id)) && ProviderOf(IndexAsWritten(id)).None?
  {
  }

  /** Concretely: a request for model `constructor` is not treated as unknown. */
  lemma ConstructorIsNotUnknown()
    ensures Lookup("constructor").None? && Truthy(IndexAsWritten("constructor"))
  {
    InheritedNamePassesUnknownGuard("constructor");
  }
}
