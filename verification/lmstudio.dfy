/**
 The LM Studio provider: it turns a request into one streaming completion
 call against the local OpenAI-compatible server. The client construction,
 the endpoint and the stream itself are outside this model; the call is
 represented by what it is given.
 */
module LMStudio {
  import opened Errors
  import opened Prompts
  import opened Base

  const LMStudioId: string := "lmstudio"

  /** Issues the completion call for `req`: the request's model id, the
      chosen template as the system instruction, and no chat history. The
      API key is not used. */
  function StreamTranslate(req: ProviderRequest): (c: CompletionCall)
    ensures c.model == req.model
    ensures c.messages == []
    ensures Subject(c.system) == Translation(req.inputLanguage, req.outputLanguage, req.inputCode)
    ensures Selectable(c.system)
  {
    CompletionCall(req.model, CreatePrompt(req.inputLanguage, req.outputLanguage, req.inputCode), [])
  }

  const LMStudioProvider: Provider := Provider(LMStudioId, StreamTranslate)

  /** The call does not depend on the API key. */
  lemma StreamTranslateIgnoresApiKey(req: ProviderRequest, key: Option<string>)
    ensures StreamTranslate(req.(apiKey := key)) == StreamTranslate(req)
  {
  }

  /** Two requests that differ in their translation issue different calls. */
  lemma StreamTranslateDistinguishesRequests(req1: ProviderRequest, req2: ProviderRequest)
    ensures StreamTranslate(req1) == StreamTranslate(req2) <==>
            req1.(apiKey := None) == req2.(apiKey := None)
  {
    if StreamTranslate(req1) == StreamTranslate(req2) {
      CreatePromptInjective(req1.inputLanguage, req1.outputLanguage, req1.inputCode,
                            req2.inputLanguage, req2.outputLanguage, req2.inputCode);
    }
  }
}
