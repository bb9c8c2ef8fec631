# Model routing and fallback of the LLM chat service

This project models the core of a chat service written in TypeScript. The
service takes a prompt and an optional model name and forwards the prompt to
one of two text-generation backends:

- Gemini models go through an OpenAI-compatible proxy.
- Ollama models run on a local inference server.

It keeps a per-provider availability map. It refuses to call a provider whose
flag is not `true`, and it marks the requested provider down when the first
attempt fails. It then tries one fallback hop and always answers, with a
fixed apology when nothing worked.

The project has three files:

- `wrappers.dfy`: `Option`.
- `registry.dfy` (module `Registry`): the model registry of
  `src/common/enums/llm-model.enum.ts`. This covers the closed provider set,
  the six model identifiers, the identifier-to-configuration table, and the
  default and fallback models.
- `chat.dfy` (module `Chat`): `ChatService` from
  `src/modules/chat/chat.service.ts`. The pure functions `ModelCall`,
  `FallbackRun`, `GenerateRun` and `Probed` specify what one call does. The
  class `ChatService` keeps the `providerAvailability` map as a field, plus a
  ghost log of every generation call that reached a backend. Its methods are
  proved equal to those functions.

Backend SDK calls are oracles. A `Backends` value maps a (model name, prompt)
pair to `Returned(value)` or `Threw`. A fresh value is passed with every
request, so a backend may go down between requests. Probe results are method
parameters.

The code is narrower than a generic requested → default → fallback chain:

- At most two generation calls are made per request.
- A failed known non-default model falls back to the default model and
  stops there.
- A failed default model goes straight to the fallback model.
- Only the first attempt's failure writes the availability map. A failed
  fallback does not.
- A first attempt that was skipped because its provider was down still
  writes `false`. This can add an explicit entry where there was none.
- An empty model name also selects the default model, because of
  `dto.model || DEFAULT_MODEL`.
- The terminal text is the full sentence
  "I apologize, but all AI services are currently unavailable. Please try again later."

## Model

| member | source | states |
|---|---|---|
| `Registry.Lookup` | src/common/enums/llm-model.enum.ts:24-52 | An identifier resolves exactly when it is one of the six enum identifiers. A resolved entry's `modelName` equals its key. |
| `Registry.ProviderFollowsFamily` | src/common/enums/llm-model.enum.ts:26-51 | A registry entry is served by Gemini exactly when its identifier starts with `gemini-`. The other three (`llama3.2`, `llama3.1`, `mistral`) are served by Ollama. |
| `Registry.RegistryHasSixKeys` | src/common/enums/llm-model.enum.ts:24-52 | The table has exactly six keys, and each entry's model name is its key. |
| `Registry.DefaultAndFallbackResolve` | src/common/enums/llm-model.enum.ts:54-56 | `DEFAULT_MODEL` resolves to (Gemini, `gemini-2.5-flash`) and `FALLBACK_MODEL` to (Ollama, `llama3.2`). Their providers differ. |
| `Registry.IndexAsWritten` | src/modules/chat/chat.service.ts:83 | Indexing the object literal yields an own entry exactly when `Lookup` succeeds, and then the same configuration. |
| `Registry.InheritedNamePassesUnknownGuard` | src/modules/chat/chat.service.ts:83-88 | Names inherited from `Object.prototype` are not registry keys. Even so, the read is truthy and carries no provider, so the unknown-model guard does not catch them. |
| `Registry.ConstructorIsNotUnknown` | src/modules/chat/chat.service.ts:83-88 | A request for model `constructor` passes the unknown-model guard. |
| `Chat.Available` | src/modules/chat/chat.service.ts:53-55 | A provider with no entry reads as unavailable (fail closed). Otherwise it reads as its flag. |
| `Chat.Probed` | src/modules/chat/chat.service.ts:27-51 | After the probe, both providers have an entry, and each provider is available exactly when its probe answered. |
| `Chat.ExtractContent` | src/modules/chat/chat.service.ts:63 | The result is never empty. It is the first choice's content when that is present and non-empty. A missing first choice, a missing message, or null or empty content gives "No response generated". |
| `Chat.BackendOutcome` | src/modules/chat/chat.service.ts:57-78 | A backend call succeeds exactly when the SDK call returns. A Gemini call yields the extracted content. An Ollama call yields the returned text unchanged. |
| `Chat.ModelCall` | src/modules/chat/chat.service.ts:115-136 | A provider whose flag is not `true` fails with no backend call. Otherwise exactly one call is made to (provider, model), and its outcome is the result. |
| `Chat.FallbackRun` | src/modules/chat/chat.service.ts:138-165 | One hop makes at most one call, to the fallback model's own registry pair. The call is made exactly when the model is registered and its provider is available. An unregistered fallback model, or a failed or skipped call, gives the apology text. Otherwise the backend's text is returned. |
| `Chat.RequestedModel` | src/modules/chat/chat.service.ts:82 | An absent or empty model name selects `DEFAULT_MODEL`. Any other name is kept. |
| `Chat.FallbackChain` | src/modules/chat/chat.service.ts:85-112 | The order a request may try: a known non-default model, then the default; the default, then the fallback; an unknown model, the default alone. The chain has one or two distinct entries, all registry pairs. |
| `Chat.GenerateRun` | src/modules/chat/chat.service.ts:80-113 | A request makes at most two backend calls, and at most one for an unknown model. Every call goes to a registry pair whose provider was available at the start. A second call's provider is also available in the map as updated after the first failed, so a provider marked down is not called again within the request. The map changes only by setting the requested provider to `false`, and only when the first attempt did not answer. Flags never rise. When the last call made answers, its text is the response. Otherwise the response is the apology, and it is the apology whenever every call failed. |
| `Chat.FollowsFallbackChain` | src/modules/chat/chat.service.ts:82-112 | The calls made are exactly determined by `FallbackChain`, in order. The first hop is called exactly when its provider is available at the start. A first call that answers ends the request with that text. Any other hop is called exactly when the first step did not answer and its provider is available in the map after the first step's write. |
| `Chat.DownProviderStaysUncontacted` | src/modules/chat/chat.service.ts:100-122 | Over any sequence of requests with no probe between them, a provider not flagged available is never contacted, and it stays unavailable. |
| `Chat.ServeIsBounded` | src/modules/chat/chat.service.ts:80-113 | Over any sequence of requests there is one response per request and at most two backend calls per request, and no flag rises. |
| `Chat.GeminiOutageScenario` | src/modules/chat/chat.service.ts:93-112 | The default model is requested, both providers are up, and Gemini throws. Gemini is marked down and `llama3.2` on Ollama answers. The calls are exactly Gemini and then Ollama. |
| `Chat.GeminiHealthyScenario` | src/modules/chat/chat.service.ts:93-99 | The default model is requested and Gemini answers. Its content is returned, the map is unchanged, and one call is made. |
| `Chat.NonDefaultGeminiFailureScenario` | src/modules/chat/chat.service.ts:100-108 | `gemini-2.5-pro` is requested and Gemini throws. Gemini is marked down before the hop to the default model, so that hop is skipped. The response is the apology text after one call. |
| `Chat.UnknownModelScenario` | src/modules/chat/chat.service.ts:85-88 | An unknown model leaves the map unchanged. It makes one call to `gemini-2.5-flash` when Gemini is available and none otherwise. |
| `Chat.AllDownScenario` | src/modules/chat/chat.service.ts:159-164 | With both providers unavailable, including the state before the first probe, no backend is called and the response is exactly the apology text. |
| `Chat.ChatService.constructor` | src/modules/chat/chat.service.ts:18-25 | The service starts with every flag unset and an empty call log. |
| `Chat.ChatService.CheckServicesAvailability` | src/modules/chat/chat.service.ts:27-51 | Sets Gemini's flag, then Ollama's, each to whether its probe returned. The map becomes `Probed` of the old map. |
| `Chat.ChatService.GenerateWithGemini` | src/modules/chat/chat.service.ts:57-64 | Logs one Gemini call and returns its outcome: the extracted content, or failure on a throw. |
| `Chat.ChatService.GenerateWithOllama` | src/modules/chat/chat.service.ts:66-78 | Logs one Ollama call for the given model and returns its outcome. |
| `Chat.ChatService.GenerateWithModel` | src/modules/chat/chat.service.ts:115-136 | The outcome and the new log entries are those of `ModelCall` on the current map. |
| `Chat.ChatService.GenerateWithFallback` | src/modules/chat/chat.service.ts:138-165 | The response and the new log entries are those of `FallbackRun` on the current map. |
| `Chat.ChatService.Generate` | src/modules/chat/chat.service.ts:80-113 | The response, the new map and the appended log entries are those of `GenerateRun` on the old map. The log keeps holding only registry pairs. |

## Findings

| source | as written | input that shows it | evidently intended | confidence | as-written member | corrected member |
|---|---|---|---|---|---|---|
| src/modules/chat/chat.service.ts:83-88 | `MODEL_PROVIDER_MAP[requestedModel]` indexes a plain object literal. A name inherited from `Object.prototype` yields a truthy value, so it skips the unknown-model branch. `generateWithModel` then gets an `undefined` provider and fails closed. The catch block writes `false` under an `undefined` key, and the request falls back to the default model. | model `"constructor"` (also `"toString"`, `"__proto__"`, …) | such a name is treated as an unknown model: own-key lookup, no write to the map | high for the lookup semantics; not executed | `Registry.IndexAsWritten` (shown by `Registry.ConstructorIsNotUnknown`) | `Registry.Lookup` |

## Left out

- HTTP wiring is not modelled: bootstrap, the validation pipe, CORS, the controller and the module declarations. A request is modelled as an optional model name and a prompt, the fields the service reads. The request DTO's own validation, which declares only `message`, is not part of this model.
- The OpenAI and LangChain SDK clients, the dynamic `import()` and the per-call construction of an Ollama client are foreign network calls. They become the `Backends` oracle and the probe parameters.
- Backend configuration from environment variables (URLs, API key, default model names) is process I/O and is left out.
- The probe's request details are left out: the `test` prompt, the 5-token cap, and the model the injected Ollama client is bound to. Only whether each probe returned matters to the service.
- The constructor launches the probe without awaiting it, and requests can race it. Concurrency is not modelled. The constructor leaves every flag unset, and `CheckServicesAvailability` is an ordinary sequential method.
- Logging is left out because it has no effect on results. The string values of `LLMProvider` (`gemini`, `ollama`) appear only in log and error text, so they are not modelled.
- The `default` branch of the provider switch in `generateWithModel` is not modelled. The provider type is a closed two-member datatype, so the match is exhaustive.
- The call log records generation calls only. Probe calls are not logged.
- The oracle answers each (model name, prompt) pair the same way within one request. `FallbackChain` never repeats a pair, so no request can observe the difference.
- `Chat.Serve` covers requests with no probe between them. A later probe resets the flags as `Chat.Probed` states.
- Exceptions are reduced to one failure signal, because the service reads an error only to log its message.
- `Chat.GenerateRun` and `Chat.ChatService.Generate` resolve the requested name with the own-key `Registry.Lookup`. For a name inherited from `Object.prototype`, the as-written first step is not represented. That step fails closed and writes `false` under an `undefined` key. Responses and backend calls are the same as for an unknown model.
