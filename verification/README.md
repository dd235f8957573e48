# Provider and model selection of the code translator

This project models, in Dafny, the back-end layer of the code translator that
picks a model and a provider for a translation request and shapes the call the
provider makes. It has four parts:

- **Provider registry** (`Base`): a map from provider id to provider.
  `RegisterProvider` inserts or overwrites by id. `GetProvider` returns the
  stored provider or fails with `UnknownProvider`. `base.ts` keeps the map in
  a module-level variable. Here it is a value: registration returns the new
  map and lookup only reads it, so a lookup cannot change the registry.
- **Model table** (`Models`): the shipped `MODELS` sequence and
  `GetModelConfig`, a first-match search that fails with `UnknownModel`.
- **Orchestrator** (`Orchestrator`): the start-up registration of the LM Studio
  provider and `streamCodeTranslation`. It resolves the provider, then the
  model, then rejects a model owned by another provider. Otherwise it forwards
  a normalised request to that provider.
- **LM Studio provider** (`Prompts`, `LMStudio`): the three-way template choice
  on the `"Natural Language"` sentinel, and the one completion call it issues.
  That call is the request's model id, the chosen template as the system
  instruction, and an empty message list.

Thrown errors become `Errors.Result` values. `Errors.Message` gives the exact
message text of each error. A prompt is modelled as the chosen template with
the fields interpolated into it, not as a string. A provider's stream is
modelled by the `CompletionCall` record it is produced from.

When both languages are "Natural Language", the input test at
`utils/providers/lmstudio.ts:12` comes first, so the natural-language-to-code
template is chosen (`BothNaturalChoosesNLToCode`). Registering an id that is
already present overwrites it, `utils/providers/base.ts:21`
(`RegisterLastWriteWins`).

`Base.CompletionCall` gives the system instruction the type `Prompts.Prompt`,
the LM Studio template type. Every provider in the model therefore issues an
LM Studio template. `base.ts` itself leaves the shape of a provider's call
open; LM Studio is the only provider the TypeScript implementation has.

`ProviderId` comes from `types/provider`, which is not part of this model. It
is treated as `string`. Determinism of prompt construction is not a separate
lemma: `CreatePrompt` is a Dafny function, so equal arguments give equal
prompts.

## Model

| member | source | states |
|---|---|---|
| Errors.MessageIdentifiesError | utils/providers/index.ts:21-23 | `Errors.Message` gives the text of the errors thrown at utils/providers/base.ts:26, types/model.ts:30 and utils/providers/index.ts:21-23. The kind of any error can be read back from that text by prefix. For an unknown provider or model, the id follows the prefix. |
| Prompts.CreatePrompt | utils/providers/lmstudio.ts:7-71 | NL-to-code is chosen iff the input is the sentinel. Code-to-NL is chosen iff only the output is. Code-to-code is chosen iff neither is. The prompt describes exactly the requested translation. |
| Prompts.CreatePromptInjective | utils/providers/lmstudio.ts:12-70 | In this encoding (template plus interpolated fields), two requests give the same prompt iff their (input, output, code) triples are equal. Distinctness of the final prompt strings is not claimed. |
| Prompts.CreatePromptOfSubject | utils/providers/lmstudio.ts:12-70 | A prompt is one the selection can produce iff rebuilding it from the translation it describes gives it back. |
| Prompts.AnchorFollowsDirection | utils/providers/lmstudio.ts:16-24 | The embedded example starts from natural language iff the input is the sentinel. For a code input, the example ends in natural language iff the output is the sentinel. |
| Prompts.BothNaturalChoosesNLToCode | utils/providers/lmstudio.ts:12-14 | With both languages set to the sentinel, the NL-to-code template is chosen, with "Natural Language" as the target. |
| Prompts.TemplateScenarios | utils/providers/lmstudio.ts:12-52 | Three example requests select NL-to-code, code-to-NL and code-to-code, with the JavaScript-to-Python example in the last. |
| Base.GetProvider | utils/providers/base.ts:24-28 | Lookup succeeds iff the id is registered and returns the stored provider. Otherwise it fails with UnknownProvider for that id. In a registry keyed by provider id, the result has the requested id. |
| Base.RegisterProvider | utils/providers/base.ts:20-22 | Afterwards the provider's id resolves to that provider. Every other id resolves as before. The key set gains exactly that id. Keying by own id is preserved. |
| Base.RegisterIdempotent | utils/providers/base.ts:21 | Registering a provider twice gives the same registry as registering it once. |
| Base.RegisterLastWriteWins | utils/providers/base.ts:21 | A second provider under the same id replaces the first. |
| Base.GetAfterRegisterAll | utils/providers/base.ts:18-27 | After any sequence of registrations, an id resolves to the last provider registered under it. If none was, it resolves as it did before. |
| Base.NeverRegisteredIsUnknown | utils/providers/base.ts:24-27 | An id that no registration used fails with UnknownProvider. |
| Base.RegisterAllWellKeyed | utils/providers/base.ts:20-22 | Registration alone always stores every provider under its own id. |
| Models.Find | types/model.ts:29 | The search succeeds iff some entry has the id. The result is the first such entry. A miss fails with UnknownModel for that id. |
| Models.GetModelConfig | types/model.ts:28-31 | A listed id gives an entry of MODELS with that id, namely the first one. An absent id fails with UnknownModel. |
| Models.FindDistinct | types/model.ts:29 | In a table with distinct ids, the search by an entry's id returns exactly that entry. |
| Models.ModelIdsDistinct | types/model.ts:13-26 | The shipped model ids are pairwise distinct. |
| Models.ShippedModelsWellFormed | types/model.ts:13-26 | Every shipped entry names provider "lmstudio" and has a positive maxCodeLength. |
| Models.GetModelConfigFindsEachEntry | types/model.ts:13-31 | Looking up any shipped entry's id returns that entry. |
| LMStudio.StreamTranslate | utils/providers/lmstudio.ts:78-93 | The call uses the request's model id unchanged and an empty message list. Its system instruction is a selectable template describing exactly the request's translation. |
| LMStudio.StreamTranslateIgnoresApiKey | utils/providers/lmstudio.ts:78-83 | The call does not depend on the API key. |
| LMStudio.StreamTranslateDistinguishesRequests | utils/providers/lmstudio.ts:84-90 | In this encoding (template plus interpolated fields), two requests give the same call iff they agree on everything except the API key. Distinctness of the final prompt strings is not claimed. |
| Orchestrator.Resolve | utils/providers/index.ts:16-24 | An unregistered provider fails with UnknownProvider, whatever the model. With a known provider, an unlisted model fails with UnknownModel. A listed model owned by another provider fails with ProviderModelMismatch. Success happens iff none of these apply. It then picks the provider stored under the requested id and forwards languages, code, model id and API key unchanged. |
| Orchestrator.StreamCodeTranslation | utils/providers/index.ts:8-33 | The call succeeds iff resolution does, with the same error otherwise. On success, the result is the registered provider's call on the forwarded request. |
| Orchestrator.ErrorPrecedence | utils/providers/index.ts:16-17 | Changing the model does not change an UnknownProvider failure. With a known provider, an unlisted model fails with UnknownModel. |
| Orchestrator.MismatchIsRefused | utils/providers/index.ts:20-24 | A shipped model paired with another registered provider fails with the mismatch error. No provider call appears in the result. |
| Orchestrator.DispatchedProviderHasRequestedId | utils/providers/index.ts:16 | In a registry keyed by provider id, the provider called has the requested id. |
| Orchestrator.StartupRegistersLMStudio | utils/providers/index.ts:6 | After start-up, "lmstudio" resolves to the LM Studio provider, every other id is unknown, and the registry is keyed by provider id. |
| Orchestrator.StartupNeverMismatches | utils/providers/lmstudio.ts:95-98 | The provider id "lmstudio" matches every shipped model's provider, so the start-up registry never reports a mismatch. |
| Orchestrator.ShippedModelTranslates | utils/providers/index.ts:26-32 | Every shipped model asked for with "lmstudio" reaches the LM Studio provider. The resulting call has that model id, the template for the request and no chat history. |

## Left out

- The stream itself (`streamText`, `toReadableStream`, `createOpenAICompatible`, the `localhost:1234` endpoint): foreign SDK and network I/O. A provider's result is the completion call it issues.
- Failures raised by the completion client (connection refused, model missing on the server): they come from the network. The provider call is modelled as total, so there is no upstream-failure error kind.
- Provider calls are fixed to LM Studio's template type: `CompletionCall.system` is a `Prompts.Prompt`, because LM Studio is the only provider there is.
- The exact prompt text and its whitespace: the dedent behaviour belongs to an unseen library. Templates are tagged cases with their interpolated fields and a fixed example language pair.
- Asynchrony: every operation is synchronous and returns a `Result`. A thrown error becomes a rejected promise in the TypeScript implementation, and an `Err` here.
- `maxCodeLength` is carried in each model entry, but the selection layer never enforces it.
- The API key beyond being forwarded: the LM Studio provider ignores it.
- The documentation scripts, the React components and the request/response interface declarations: they are demos, UI and type declarations with no selection behaviour.
