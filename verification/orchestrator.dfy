/**
 The translation entry point: it registers the LM Studio provider at
 start-up, then for each call resolves the provider, resolves the model,
 checks that the model belongs to that provider, and forwards a normalised
 request to it.
 */
module Orchestrator {
  import opened Errors
  import opened Prompts
  import opened Base
  import opened Models
  import opened LMStudio

  /** The caller's arguments. */
  datatype TranslateArgs = TranslateArgs(
    inputLanguage: string,
    outputLanguage: string,
    inputCode: string,
    model: string,
    provider: string,
    apiKey: Option<string>)

  /** The provider chosen and the request handed to it. */
  datatype Dispatch = Dispatch(provider: Provider, request: ProviderRequest)

  /** The registry once the module has loaded. */
  const StartupRegistry: Registry := RegisterProvider(EmptyRegistry, LMStudioProvider)

  /** The request forwarded for `args` once the model entry `config` is chosen. */
  function Forwarded(args: TranslateArgs, config: ModelConfig): ProviderRequest {
    ProviderRequest(args.inputLanguage, args.outputLanguage, args.inputCode, config.id, args.apiKey)
  }

  /** The checks of a translation call, in the order of `index.ts`. */
  function Resolve(reg: Registry, args: TranslateArgs): (r: Result<Dispatch>)
    ensures args.provider !in reg ==> r == Err(UnknownProvider(args.provider))
    ensures args.provider in reg && !Listed(MODELS, args.model) ==> r == Err(UnknownModel(args.model))
    ensures r.Ok? <==> args.provider in reg && Listed(MODELS, args.model)
                       && GetModelConfig(args.model).value.provider == args.provider
    ensures args.provider in reg && Listed(MODELS, args.model)
            && GetModelConfig(args.model).value.provider != args.provider
            ==> r == Err(ProviderModelMismatch(args.model, args.provider))
    ensures r.Ok? ==> r.value.provider == reg[args.provider]
    ensures r.Ok? ==> r.value.request == ProviderRequest(args.inputLanguage, args.outputLanguage,
                                                         args.inputCode, args.model, args.apiKey)
  {
    var provider :- GetProvider(reg, args.provider);
    var config :- GetModelConfig(args.model);
    if config.provider != args.provider then
      Err(ProviderModelMismatch(config.id, args.provider))
    else
      Ok(Dispatch(provider, Forwarded(args, config)))
  }

  /** `streamCodeTranslation`: resolves the call and hands the forwarded
      request to the chosen provider, whose call is returned unchanged. */
  function StreamCodeTranslation(reg: Registry, args: TranslateArgs): (r: Result<CompletionCall>)
    ensures r.Ok? <==> Resolve(reg, args).Ok?
    ensures r.Err? ==> r.error == Resolve(reg, args).error
    ensures r.Ok? ==> r.value == reg[args.provider].streamTranslate(
                                   ProviderRequest(args.inputLanguage, args.outputLanguage,
                                                   args.inputCode, args.model, args.apiKey))
  {
    var d :- Resolve(reg, args);
    Ok(d.provider.streamTranslate(d.request))
  }

  /** Errors come in the order of `index.ts`: an unknown provider is reported
      whatever the model is, and an unknown model before any mismatch. */
  lemma ErrorPrecedence(reg: Registry, args: TranslateArgs, model: string)
    ensures args.provider !in reg ==>
              Resolve(reg, args.(model := model)) == Err(UnknownProvider(args.provider))
    ensures args.provider in reg && !Listed(MODELS, args.model) ==>
              StreamCodeTranslation(reg, args) == Err(UnknownModel(args.model))
  {
  }

  /** A model owned by another provider is refused, and no provider call is
      made: the result carries no completion call. */
  lemma MismatchIsRefused(reg: Registry, args: TranslateArgs, i: int)
    requires 0 <= i < |MODELS|
    requires args.model == MODELS[i].id
    requires args.provider in reg
    requires MODELS[i].provider != args.provider
    ensures StreamCodeTranslation(reg, args) == Err(ProviderModelMismatch(args.model, args.provider))
  {
    GetModelConfigFindsEachEntry(i);
  }

  /** In a registry that keeps providers under their own ids, the provider
      called is the one whose id was asked for. */
  lemma DispatchedProviderHasRequestedId(reg: Registry, args: TranslateArgs)
    requires WellKeyed(reg)
    requires Resolve(reg, args).Ok?
    ensures Resolve(reg, args).value.provider.id == args.provider
  {
  }

  /** After start-up exactly one provider is known, LM Studio. */
  lemma StartupRegistersLMStudio()
    ensures WellKeyed(StartupRegistry)
    ensures GetProvider(StartupRegistry, LMStudioId) == Ok(LMStudioProvider)
    ensures forall id :: id != LMStudioId ==> GetProvider(StartupRegistry, id) == Err(UnknownProvider(id))
  {
  }

  /** The shipped tables agree: every model belongs to the provider that is
      registered at start-up, so no mismatch can be reported after start-up. */
  lemma StartupNeverMismatches(args: TranslateArgs)
    ensures !(Resolve(StartupRegistry, args).Err? && Resolve(StartupRegistry, args).error.ProviderModelMismatch?)
  {
    if args.provider in StartupRegistry && Listed(MODELS, args.model) {
      ShippedModelsWellFormed();
      assert args.provider == LMStudioId;
    }
  }

  /** Every shipped model, asked for with its provider, reaches LM Studio,
      which issues one call for that model with the request's template and
      no chat history. */
  lemma ShippedModelTranslates(args: TranslateArgs, i: int)
    requires 0 <= i < |MODELS|
    requires args.model == MODELS[i].id
    requires args.provider == LMStudioId
    ensures Resolve(StartupRegistry, args).Ok?
    ensures Resolve(StartupRegistry, args).value.provider == LMStudioProvider
    ensures StreamCodeTranslation(StartupRegistry, args) ==
            Ok(CompletionCall(MODELS[i].id, CreatePrompt(args.inputLanguage, args.outputLanguage, args.inputCode), []))
  {
    GetModelConfigFindsEachEntry(i);
    ShippedModelsWellFormed();
  }
}
