/**
 * The chat service: per-provider availability tracking, the startup probe,
 * and the bounded fallback chain that turns a request into a response.
 *
 * Backend SDK calls are oracles: a `Backends` value says, for a model name and
 * a prompt, whether the call returned (and what) or threw. A fresh value is
 * passed to every request, so a backend may change behaviour between requests.
 */
module Chat {
  import opened Wrappers
  import opened Registry

  /** The terminal text when no backend produced an answer. */
  const ALL_UNAVAILABLE: string :=
    "I apologize, but all AI services are currently unavailable. Please try again later."

  /** The placeholder for a Gemini completion without usable content. */
  const NO_RESPONSE: string := "No response generated"

  /** What a backend SDK call did: returned a value, or threw. */
  datatype Reply<T> = Returned(value: T) | Threw

  /** The part of an OpenAI-style chat completion the service reads. */
  datatype Message = Message(content: Option<string>)
  datatype Choice = Choice(message: Option<Message>)
  datatype Completion = Completion(choices: seq<Choice>)

  /** The two backends, each answering a (model name, prompt) call. */
  datatype Backends = Backends(
    gemini: (string, string) -> Reply<Completion>,
    ollama: (string, string) -> Reply<string>)

  /** A generation attempt's result; every failure is the same signal. */
  datatype Outcome = Ok(text: string) | Fail

  /** A generation call that reached a backend. */
  datatype Attempt = Attempt(provider: LlmProvider, modelName: string)

  datatype GenerateRequest = GenerateRequest(model: Option<string>, prompt: string)
  datatype GenerateResponse = GenerateResponse(text: string)

  /** A flag reads as available only when it is present and `true` (fail closed). */
  function Available(availability: map<LlmProvider, bool>, p: LlmProvider): (r: bool)
    ensures p !in availability ==> !r
    ensures p in availability ==> r == availability[p]
  {
    p in availability && availability[p]
  }

  /** The state after the startup probe: each flag is exactly its probe's result. */
  function Probed(availability: map<LlmProvider, bool>, geminiAnswered: bool, ollamaAnswered: bool)
    : (r: map<LlmProvider, bool>)
    ensures r.Keys == {Gemini, Ollama}
    ensures Available(r, Gemini) == geminiAnswered
    ensures Available(r, Ollama) == ollamaAnswered
  {
    var r := availability[Gemini := geminiAnswered][Ollama := ollamaAnswered];
    assert forall p | p in r :: p.Gemini? || p.Ollama?;
    r
  }

  /** The text of the first choice, or the placeholder when it is missing or empty. */
  function ExtractContent(c: Completion): (r: string)
    ensures r != ""
    ensures r == NO_RESPONSE || (|c.choices| > 0 && c.choices[0].message == Some(Message(Some(r))))
    ensures |c.choices| == 0 || c.choices[0].message.None? ==> r == NO_RESPONSE
    ensures |c.choices| > 0 && c.choices[0].message.Some? ==>
              var content := c.choices[0].message.value.content;
              (content.None? || content.value == "" ==> r == NO_RESPONSE) &&
              (content.Some? && content.value != "" ==> r == content.value)
  {
    if |c.choices| > 0 && c.choices[0].message.Some?
       && c.choices[0].message.value.content.Some? && c.choices[0].message.value.content.value != ""
    then c.choices[0].message.value.content.value
    else NO_RESPONSE
  }

  /**
   * The outcome of one backend call, dispatched on the provider: a thrown call
   * fails; a Gemini completion never yields empty text; Ollama's text is passed on.
   */
  function BackendOutcome(backends: Backends, p: LlmProvider, modelName: string, prompt: string)
    : (r: Outcome)
    ensures p == Gemini ==> (r.Ok? <==> backends.gemini(modelName, prompt).Returned?)
    ensures p == Gemini && r.Ok? ==> r.text == ExtractContent(backends.gemini(modelName, prompt).value)
    ensures p == Ollama ==> (r.Ok? <==> backends.ollama(modelName, prompt).Returned?)
    ensures p == Ollama && r.Ok? ==> r.text == backends.ollama(modelName, prompt).value
  {
    match p
    case Gemini =>
      (match backends.gemini(modelName, prompt)
       case Returned(completion) => Ok(ExtractContent(completion))
       case Threw => Fail)
    case Ollama =>
      (match backends.ollama(modelName, prompt)
       case Returned(text) => Ok(text)
       case Threw => Fail)
  }

  /** The outcome of one attempt as the log records it. */
  function AttemptOutcome(backends: Backends, a: Attempt, prompt: string): Outcome {
    BackendOutcome(backends, a.provider, a.modelName, prompt)
  }

  /** An attempt names a registry model together with that model's own provider. */
  predicate FromRegistry(a: Attempt) {
    Lookup(a.modelName) == Some(ModelConfig(a.provider, a.modelName))
  }

  /** A generation step: its outcome and the backend calls it made. */
  datatype Step = Step(outcome: Outcome, attempts: seq<Attempt>)

  /**
   * One call to a provider: a provider not flagged available fails at once and
   * is never contacted; otherwise exactly one backend call is made.
   */
  function ModelCall(availability: map<LlmProvider, bool>, backends: Backends,
                     p: LlmProvider, modelName: string, prompt: string): (r: Step)
    ensures r.attempts != [] <==> Available(availability, p)
    ensures r.attempts == [] ==> r.outcome == Fail
    ensures r.attempts != [] ==> r.attempts == [Attempt(p, modelName)]
    ensures r.attempts != [] ==> r.outcome == BackendOutcome(backends, p, modelName, prompt)
  {
    if !Available(availability, p) then Step(Fail, [])
    else Step(BackendOutcome(backends, p, modelName, prompt), [Attempt(p, modelName)])
  }

  /** A response together with the backend calls made to produce it. */
  datatype Answer = Answer(response: GenerateResponse, attempts: seq<Attempt>)

  /**
   * A single fallback hop: at most one backend call, at the configured pair of
   * `fallbackModel`; the backend's text on success, the terminal text otherwise.
   */
  function FallbackRun(fallbackModel: string, prompt: string,
                       availability: map<LlmProvider, bool>, backends: Backends): (r: Answer)
    ensures |r.attempts| <= 1
    ensures Lookup(fallbackModel).None? ==> r == Answer(GenerateResponse(ALL_UNAVAILABLE), [])
    ensures r.attempts != [] <==>
              Lookup(fallbackModel).Some? && Available(availability, Lookup(fallbackModel).value.provider)
    ensures forall a | a in r.attempts ::
              Lookup(fallbackModel) == Some(ModelConfig(a.provider, a.modelName))
              && Available(availability, a.provider)
    ensures r.attempts != [] && AttemptOutcome(backends, r.attempts[0], prompt).Ok? ==>
              r.response.text == AttemptOutcome(backends, r.attempts[0], prompt).text
    ensures r.attempts == [] || AttemptOutcome(backends, r.attempts[0], prompt).Fail? ==>
              r.response.text == ALL_UNAVAILABLE
  {
    match Lookup(fallbackModel)
    case None => Answer(GenerateResponse(ALL_UNAVAILABLE), [])
    case Some(config) =>
      var step := ModelCall(availability, backends, config.provider, config.modelName, prompt);
      if step.outcome.Ok? then Answer(GenerateResponse(step.outcome.text), step.attempts)
      else Answer(GenerateResponse(ALL_UNAVAILABLE), step.attempts)
  }

  /** The model a request asks for: an absent or empty name means the default. */
  function RequestedModel(model: Option<string>): (r: string)
    ensures r != ""
    ensures model.Some? && model.value != "" ==> r == model.value
    ensures model == None || model == Some("") ==> r == DEFAULT_MODEL
  {
    if model.Some? && model.value != "" then model.value else DEFAULT_MODEL
  }

  /** The backend pair a registry configuration is called with. */
  function AttemptFor(config: ModelConfig): Attempt {
    Attempt(config.provider, config.modelName)
  }

  /**
   * Reference definition of the routing order: the pairs a request may try,
   * in order. A known non-default model is followed by the default only; the
   * default is followed by the fallback model only; an unknown model goes
   * straight to the default and stops there.
   */
  function FallbackChain(requested: string): (chain: seq<Attempt>)
    ensures 1 <= |chain| <= 2
    ensures forall a | a in chain :: FromRegistry(a)
    ensures |chain| == 2 ==> chain[0] != chain[1]
  {
    match Lookup(requested)
    case None => [Attempt(Gemini, "gemini-2.5-flash")]
    case Some(config) =>
      if requested != DEFAULT_MODEL then [AttemptFor(config), Attempt(Gemini, "gemini-2.5-flash")]
      else [AttemptFor(config), Attempt(Ollama, "llama3.2")]
  }

  /** Whether the requested model resolves and its first attempt answers. */
  predicate FirstAttemptSucceeds(request: GenerateRequest, availability: map<LlmProvider, bool>,
                                 backends: Backends)
  {
    var config := Lookup(RequestedModel(request.model));
    config.Some?
    && Available(availability, config.value.provider)
    && BackendOutcome(backends, config.value.provider, config.value.modelName, request.prompt).Ok?
  }

  /** A whole request: the response, the availability afterwards, and the backend calls made. */
  datatype Run = Run(response: GenerateResponse, availability: map<LlmProvider, bool>,
                     attempts: seq<Attempt>)

  /**
   * One request through the orchestrator. Never fails: the response is a
   * backend's answer or the terminal text. At most two backend calls, to
   * registry pairs whose providers were flagged available; the only flag
   * written is the requested model's provider's, to `false`, and only when its
   * first attempt did not answer.
   */
  function GenerateRun(request: GenerateRequest, availability: map<LlmProvider, bool>,
                       backends: Backends): (r: Run)
    // bounded: two calls at most, one for an unknown model
    ensures |r.attempts| <= 2
    ensures Lookup(RequestedModel(request.model)).None? ==> |r.attempts| <= 1
    // fail closed: only registry pairs, only providers available at the start
    ensures forall a | a in r.attempts :: FromRegistry(a) && Available(availability, a.provider)
    // a later hop also respects the flag written after the first hop failed
    ensures forall i | 1 <= i < |r.attempts| :: Available(r.availability, r.attempts[i].provider)
    // the availability map
    ensures var config := Lookup(RequestedModel(request.model));
            r.availability ==
              if config.Some? && !FirstAttemptSucceeds(request, availability, backends)
              then availability[config.value.provider := false]
              else availability
    ensures forall p :: Available(r.availability, p) ==> Available(availability, p)
    // the response
    ensures r.response.text == ALL_UNAVAILABLE
            || (r.attempts != []
                && AttemptOutcome(backends, r.attempts[|r.attempts| - 1], request.prompt)
                   == Ok(r.response.text))
    ensures (forall a | a in r.attempts :: AttemptOutcome(backends, a, request.prompt).Fail?) ==>
              r.response.text == ALL_UNAVAILABLE
    // a last call that answers supplies the response
    ensures r.attempts != [] && AttemptOutcome(backends, r.attempts[|r.attempts| - 1], request.prompt).Ok? ==>
              r.response.text == AttemptOutcome(backends, r.attempts[|r.attempts| - 1], request.prompt).text
  {
    var requested := RequestedModel(request.model);
    match Lookup(requested)
    case None =>
      var fallback := FallbackRun(DEFAULT_MODEL, request.prompt, availability, backends);
      Run(fallback.response, availability, fallback.attempts)
    case Some(config) =>
      var first := ModelCall(availability, backends, config.provider, config.modelName, request.prompt);
      if first.outcome.Ok? then
        Run(GenerateResponse(first.outcome.text), availability, first.attempts)
      else
        var marked := availability[config.provider := false];
        var next := if requested != DEFAULT_MODEL then DEFAULT_MODEL else FALLBACK_MODEL;
        var fallback := FallbackRun(next, request.prompt, marked, backends);
        Run(fallback.response, marked, first.attempts + fallback.attempts)
  }

  /**
   * The routing order, exactly: the calls made follow `FallbackChain`. The
   * first hop is called exactly when its provider is flagged available at the
   * start; a first call that answers ends the request; any other hop is called
   * exactly when the first step did not answer and its provider is available
   * in the map as updated after that step.
   */
  lemma FollowsFallbackChain(request: GenerateRequest, availability: map<LlmProvider, bool>,
                             backends: Backends)
    ensures var r := GenerateRun(request, availability, backends);
            var chain := FallbackChain(RequestedModel(request.model));
            && (forall a | a in r.attempts :: a in chain)
            && (chain[0] in r.attempts <==> Available(availability, chain[0].provider))
            && (chain[0] in r.attempts ==> r.attempts[0] == chain[0])
            && (forall a | a in r.attempts :: a == chain[0] || Available(r.availability, a.provider))
            && (|r.attempts| == 2 ==> r.attempts == chain)
            && (FirstAttemptSucceeds(request, availability, backends) ==>
                  r.attempts == [chain[0]]
                  && r.response.text == AttemptOutcome(backends, chain[0], request.prompt).text)
            && (!FirstAttemptSucceeds(request, availability, backends)
                && Available(r.availability, chain[|chain| - 1].provider) ==>
                  r.attempts != [] && r.attempts[|r.attempts| - 1] == chain[|chain| - 1])
  {
    var requested := RequestedModel(request.model);
    var r := GenerateRun(request, availability, backends);
    var chain := FallbackChain(requested);
    DefaultAndFallbackResolve();
    match Lookup(requested)
    case None =>
      var fallback := FallbackRun(DEFAULT_MODEL, request.prompt, availability, backends);
      assert chain == [Attempt(Gemini, "gemini-2.5-flash")];
      assert r.attempts == fallback.attempts;
      assert r.availability == availability;
    case Some(config) =>
      var first := ModelCall(availability, backends, config.provider, config.modelName, request.prompt);
      assert chain[0] == AttemptFor(config);
      if first.outcome.Fail? {
        var marked := availability[config.provider := false];
        var next := if requested != DEFAULT_MODEL then DEFAULT_MODEL else FALLBACK_MODEL;
        var fallback := FallbackRun(next, request.prompt, marked, backends);
        assert Lookup(next) == Some(ModelConfig(chain[1].provider, chain[1].modelName));
        assert r.attempts == first.attempts + fallback.attempts;
        assert r.availability == marked;
      }
  }

  /** One request in a sequence, with the backends' behaviour at that time. */
  datatype Turn = Turn(request: GenerateRequest, backends: Backends)

  /** What a sequence of requests did: final availability, backend calls, responses. */
  datatype Trace = Trace(availability: map<LlmProvider, bool>, attempts: seq<Attempt>,
                         responses: seq<GenerateResponse>)

  /** Successive requests against the one shared availability map, with no probe between them. */
  ghost function Serve(turns: seq<Turn>, availability: map<LlmProvider, bool>): Trace
    decreases |turns|
  {
    if turns == [] then Trace(availability, [], [])
    else
      var run := GenerateRun(turns[0].request, availability, turns[0].backends);
      var rest := Serve(turns[1..], run.availability);
      Trace(rest.availability, run.attempts + rest.attempts, [run.response] + rest.responses)
  }

  /**
   * A provider marked down is never contacted again, and stays down, until a
   * probe runs: no request can bring it back.
   */
  lemma {:induction false} DownProviderStaysUncontacted(turns: seq<Turn>,
                                                        availability: map<LlmProvider, bool>,
                                                        p: LlmProvider)
    requires !Available(availability, p)
    ensures forall a | a in Serve(turns, availability).attempts :: a.provider != p
    ensures !Available(Serve(turns, availability).availability, p)
    decreases |turns|
  {
    if turns != [] {
      var run := GenerateRun(turns[0].request, availability, turns[0].backends);
      DownProviderStaysUncontacted(turns[1..], run.availability, p);
    }
  }

  /**
   * Over any sequence of requests: one response per request, at most two
   * backend calls per request, and flags only ever fall.
   */
  lemma {:induction false} ServeIsBounded(turns: seq<Turn>, availability: map<LlmProvider, bool>)
    ensures |Serve(turns, availability).responses| == |turns|
    ensures |Serve(turns, availability).attempts| <= 2 * |turns|
    ensures forall q :: Available(Serve(turns, availability).availability, q) ==> Available(availability, q)
    decreases |turns|
  {
    if turns != [] {
      var run := GenerateRun(turns[0].request, availability, turns[0].backends);
      ServeIsBounded(turns[1..], run.availability);
    }
  }

  /** Requested default model, Gemini throws: the flag falls and Ollama's fallback model answers. */
  lemma GeminiOutageScenario(prompt: string, backends: Backends, text: string)
    requires backends.gemini("gemini-2.5-flash", prompt).Threw?
    requires backends.ollama("llama3.2", prompt) == Returned(text)
    ensures GenerateRun(GenerateRequest(Some("gemini-2.5-flash"), prompt),
                        map[Gemini := true, Ollama := true], backends)
            == Run(GenerateResponse(text), map[Gemini := false, Ollama := true],
                   [Attempt(Gemini, "gemini-2.5-flash"), Attempt(Ollama, "llama3.2")])
  {
  }

  /** Requested default model, Gemini answers: its text is returned and no flag changes. */
  lemma GeminiHealthyScenario(prompt: string, backends: Backends, text: string)
    requires text != ""
    requires backends.gemini("gemini-2.5-flash", prompt)
             == Returned(Completion([Choice(Some(Message(Some(text))))]))
    ensures GenerateRun(GenerateRequest(Some("gemini-2.5-flash"), prompt),
                        map[Gemini := true, Ollama := true], backends)
            == Run(GenerateResponse(text), map[Gemini := true, Ollama := true],
                   [Attempt(Gemini, "gemini-2.5-flash")])
  {
  }

  /**
   * A non-default Gemini model fails: Gemini is marked down before the hop to
   * the default model, so that hop is skipped and no second call is made.
   */
  lemma NonDefaultGeminiFailureScenario(prompt: string, backends: Backends)
    requires backends.gemini("gemini-2.5-pro", prompt).Threw?
    ensures GenerateRun(GenerateRequest(Some("gemini-2.5-pro"), prompt),
                        map[Gemini := true, Ollama := true], backends)
            == Run(GenerateResponse(ALL_UNAVAILABLE), map[Gemini := false, Ollama := true],
                   [Attempt(Gemini, "gemini-2.5-pro")])
  {
  }

  /** An unknown model goes to the default model alone and touches no flag. */
  lemma UnknownModelScenario(prompt: string, availability: map<LlmProvider, bool>, backends: Backends)
    ensures var r := GenerateRun(GenerateRequest(Some("unknown-model-xyz"), prompt), availability, backends);
            r.availability == availability
            && r.attempts == (if Available(availability, Gemini) then [Attempt(Gemini, "gemini-2.5-flash")] else [])
  {
  }

  /** With both providers down, no backend is called and the terminal text is returned. */
  lemma AllDownScenario(request: GenerateRequest, availability: map<LlmProvider, bool>, backends: Backends)
    requires !Available(availability, Gemini) && !Available(availability, Ollama)
    ensures GenerateRun(request, availability, backends).attempts == []
    ensures GenerateRun(request, availability, backends).response == GenerateResponse(ALL_UNAVAILABLE)
  {
  }

  /** The chat service: the shared availability map and a log of backend calls. */
  class ChatService {
    var providerAvailability: map<LlmProvider, bool>
    ghost var attempts: seq<Attempt>

    /** Every logged call went to a registry model on its own provider. */
    ghost predicate Valid()
      reads this
    {
      forall a | a in attempts :: FromRegistry(a)
    }

    /** Before the startup probe has landed every flag is unset. */
    constructor ()
      ensures Valid()
      ensures providerAvailability == map[] && attempts == []
    {
      providerAvailability := map[];
      attempts := [];
    }

    /** The startup probe: Gemini's flag, then Ollama's, each set to whether its probe answered. */
    method CheckServicesAvailability(geminiProbe: Reply<Completion>, ollamaProbe: Reply<string>)
      modifies this`providerAvailability
      ensures providerAvailability ==
                Probed(old(providerAvailability), geminiProbe.Returned?, ollamaProbe.Returned?)
    {
      if geminiProbe.Returned? {
        providerAvailability := providerAvailability[Gemini := true];
      } else {
        providerAvailability := providerAvailability[Gemini := false];
      }
      if ollamaProbe.Returned? {
        providerAvailability := providerAvailability[Ollama := true];
      } else {
        providerAvailability := providerAvailability[Ollama := false];
      }
    }

    /** One call to the Gemini backend. */
    method GenerateWithGemini(model: string, prompt: string, backends: Backends)
      returns (r: Outcome)
      modifies this`attempts
      ensures attempts == old(attempts) + [Attempt(Gemini, model)]
      ensures r == BackendOutcome(backends, Gemini, model, prompt)
    {
      attempts := attempts + [Attempt(Gemini, model)];
      match backends.gemini(model, prompt)
      case Returned(completion) =>
        r := Ok(ExtractContent(completion));
      case Threw =>
        r := Fail;
    }

    /** One call to the Ollama backend, with a client bound to `model`. */
    method GenerateWithOllama(model: string, prompt: string, backends: Backends)
      returns (r: Outcome)
      modifies this`attempts
      ensures attempts == old(attempts) + [Attempt(Ollama, model)]
      ensures r == BackendOutcome(backends, Ollama, model, prompt)
    {
      attempts := attempts + [Attempt(Ollama, model)];
      match backends.ollama(model, prompt)
      case Returned(text) =>
        r := Ok(text);
      case Threw =>
        r := Fail;
    }

    /** Refuses a provider not flagged available; otherwise dispatches on the provider. */
    method GenerateWithModel(provider: LlmProvider, model: string, prompt: string, backends: Backends)
      returns (r: Outcome)
      modifies this`attempts
      ensures var step := ModelCall(providerAvailability, backends, provider, model, prompt);
              r == step.outcome && attempts == old(attempts) + step.attempts
    {
      if !Available(providerAvailability, provider) {
        return Fail;
      }
      match provider
      case Gemini =>
        r := GenerateWithGemini(model, prompt, backends);
      case Ollama =>
        r := GenerateWithOllama(model, prompt, backends);
    }

    /** A single fallback hop to `fallbackModel`. */
    method GenerateWithFallback(fallbackModel: string, prompt: string, backends: Backends)
      returns (response: GenerateResponse)
      modifies this`attempts
      ensures var answer := FallbackRun(fallbackModel, prompt, providerAvailability, backends);
              response == answer.response && attempts == old(attempts) + answer.attempts
    {
      var config := Lookup(fallbackModel);
      if config.None? {
        return GenerateResponse(ALL_UNAVAILABLE);
      }
      var outcome := GenerateWithModel(config.value.provider, config.value.modelName, prompt, backends);
      if outcome.Ok? {
        response := GenerateResponse(outcome.text);
      } else {
        response := GenerateResponse(ALL_UNAVAILABLE);
      }
    }

    /** Serves one request; never fails. */
    method Generate(request: GenerateRequest, backends: Backends)
      returns (response: GenerateResponse)
      requires Valid()
      modifies this
      ensures Valid()
      ensures var run := GenerateRun(request, old(providerAvailability), backends);
              response == run.response
              && providerAvailability == run.availability
              && attempts == old(attempts) + run.attempts
    {
      var requested := RequestedModel(request.model);
      var config := Lookup(requested);
      if config.None? {
        response := GenerateWithFallback(DEFAULT_MODEL, request.prompt, backends);
        return;
      }
      var outcome := GenerateWithModel(config.value.provider, config.value.modelName, request.prompt, backends);
      if outcome.Ok? {
        return GenerateResponse(outcome.text);
      }
      providerAvailability := providerAvailability[config.value.provider := false];
      if requested != DEFAULT_MODEL {
        response := GenerateWithFallback(DEFAULT_MODEL, request.prompt, backends);
        return;
      }
      response := GenerateWithFallback(FALLBACK_MODEL, request.prompt, backends);
    }
  }
}
