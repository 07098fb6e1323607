/** server/server/services/llm/factory.py: `LLMServiceFactory.create`, the choice of
    service from provider and model. */
module LlmFactory {
  import opened Wrappers
  import opened Text
  import opened ShoppingList
  import opened LlmModels
  import opened OpenAIBase

  /** The service built: which class, and the client it holds. */
  datatype LlmService = Gpt35TurboService(client: OpenAIClient) | Gpt4Service(client: OpenAIClient)

  /** `GPT35TurboService()` in the environment `env`. */
  function NewGpt35(env: map<string, string>): (r: Result<LlmService, LlmError>)
    ensures r.Success? <==> NewBaseService(env, Gpt35Turbo).Success?
    ensures r.Success? ==> r.value == Gpt35TurboService(NewBaseService(env, Gpt35Turbo).value)
  {
    var client :- NewBaseService(env, Gpt35Turbo);
    Success(Gpt35TurboService(client))
  }

  /** `GPT4Service()` in the environment `env`. */
  function NewGpt4(env: map<string, string>): (r: Result<LlmService, LlmError>)
    ensures r.Success? <==> NewBaseService(env, Gpt4).Success?
    ensures r.Success? ==> r.value == Gpt4Service(NewBaseService(env, Gpt4).value)
  {
    var client :- NewBaseService(env, Gpt4);
    Success(Gpt4Service(client))
  }

  /** `LLMServiceFactory.create(provider, model)`; `model` is `None` when not given. */
  function Create(env: map<string, string>, provider: string, model: Option<string>): (r: Result<LlmService, LlmError>)
    ensures Lower(provider) != "openai" ==> r == Failure(UnsupportedProvider(provider))
    ensures Lower(provider) == "openai" && model == Some(Gpt4Turbo) ==> r == Failure(NotImplemented)
    ensures r.Success? ==> Lower(provider) == "openai" && ApiKeyVar in env && r.value.client.apiKey == env[ApiKeyVar]
    ensures r.Success? ==> (r.value.Gpt4Service? <==> model == Some(Gpt4))
    ensures r.Success? ==> r.value.client.model == (if model == Some(Gpt4) then Gpt4 else Gpt35Turbo)
    ensures Lower(provider) == "openai" && model != Some(Gpt4Turbo) ==>
      (r.Success? <==> ApiKeyVar in env && env[ApiKeyVar] != "")
  {
    if Lower(provider) == "openai" then
      if model == Some(Gpt4) then NewGpt4(env)
      else if model == Some(Gpt4Turbo) then Failure(NotImplemented)
      else NewGpt35(env)
    else Failure(UnsupportedProvider(provider))
  }

  /** The provider is compared after lower-casing, so any spelling of `openai` builds the
      same service. */
  lemma ProviderIgnoresCase(env: map<string, string>, p1: string, p2: string, model: Option<string>)
    requires Lower(p1) == "openai" && Lower(p2) == "openai"
    ensures Create(env, p1, model) == Create(env, p2, model)
  {
  }

  /** The default call, without a model, builds GPT-3.5 Turbo whenever the key is set. */
  lemma DefaultIsGpt35(env: map<string, string>)
    requires ApiKeyVar in env && env[ApiKeyVar] != ""
    ensures Create(env, "openai", None) == Success(Gpt35TurboService(OpenAIClient(env[ApiKeyVar], Gpt35Turbo)))
  {
  }
}
