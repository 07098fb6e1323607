/** server/server/services/llm/openai_service.py: the older single-model service. It
    decodes the reply as it comes, without the markdown clean-up, and holds an inline copy
    of the fallback line parser of base.py. */
module OpenAIService {
  import opened Wrappers
  import opened Text
  import opened ShoppingList
  import opened LlmModels
  import opened OpenAIBase
  import opened Gpt35

  /** `OpenAIService()` in the environment `env`: the key check of the OpenAI services,
      with the model fixed to GPT-3.5 Turbo. */
  function NewOpenAIService(env: map<string, string>): (r: Result<OpenAIClient, LlmError>)
    ensures r.Success? <==> ApiKeyVar in env && env[ApiKeyVar] != ""
    ensures r.Success? ==> r.value.model == Gpt35Turbo && r.value.apiKey == env[ApiKeyVar]
    ensures r.Failure? ==> r.error == MissingApiKey
  {
    NewBaseService(env, Gpt35Turbo)
  }

  /** `text_to_shopping_list` after the chat completion: the reply goes to `json.loads`
      unchanged; the inline fallback loop is the loop of `_parse_text_response`. */
  method TextToShoppingList(reply: string, decode: string -> Decoded, parseFloat: string -> Option<real>) returns (r: Result<seq<JsonItem>, LlmError>)
    ensures r == DecodeOrParse(reply, decode, parseFloat)
  {
    var decoded := decode(reply);
    if decoded.JsonList? {
      r := ValidateItems(decoded.items);
    } else {
      var parsed := ParseTextResponse(reply, parseFloat);
      if parsed.Failure? {
        return Failure(parsed.error);
      }
      r := Success(ToJsonList(parsed.value));
    }
  }

  /** On a reply that needs no clean-up (stripped, not fenced) this service and the
      GPT-3.5 provider return the same result. */
  lemma AgreesWithGpt35OnPlainReplies(reply: string, decode: string -> Decoded, parseFloat: string -> Option<real>)
    requires Strip(reply) == reply && !StartsWith(reply, Fence)
    ensures ShoppingListReply(reply, decode, parseFloat) == DecodeOrParse(reply, decode, parseFloat)
  {
    assert CleanContent(reply) == Success(reply);
  }
}
