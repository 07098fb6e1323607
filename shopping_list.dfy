/** The shopping-list reply that both OpenAI services produce: a list of JSON objects,
    each of which must carry `name`, `quantity` and `unit_price`, and the Python
    exceptions the reply handling can raise. */
module ShoppingList {
  import opened Wrappers

  /** The JSON values an item field can hold, as far as the services look at them. */
  datatype JsonValue = JString(s: string) | JNumber(n: real) | JOther

  /** One decoded JSON object of the list. */
  type JsonItem = map<string, JsonValue>

  /** What `json.loads` makes of the reply: either it raises `JSONDecodeError`, or it
      yields a list of objects. */
  datatype Decoded = NotJson | JsonList(items: seq<JsonItem>)

  /** The Python exceptions the reply handling raises. */
  datatype LlmError =
    | MissingApiKey          // ValueError: no OPENAI_API_KEY
    | MissingFields          // ValueError("Missing required fields in item")
    | BadFloat(text: string) // ValueError from float(text)
    | UnpackMismatch         // ValueError: more than one "($" in the name-and-price text
    | NoPriceToken           // IndexError: nothing follows "($"
    | UnboundName            // UnboundLocalError: `name` used before any line assigned it
    | NoNewline              // IndexError: a fenced reply without a line break
    | NotImplemented         // NotImplementedError("GPT-4 Turbo not implemented yet")
    | UnsupportedProvider(provider: string) // ValueError from the service factory

  /** The keys every item of the list must have. */
  predicate HasRequiredKeys(item: JsonItem) {
    "name" in item && "quantity" in item && "unit_price" in item
  }

  /** The validation loop over a decoded list: the list comes back unchanged when every
      item has the three keys, and `ValueError` is raised otherwise. */
  method ValidateItems(list: seq<JsonItem>) returns (r: Result<seq<JsonItem>, LlmError>)
    ensures r.Success? <==> forall i :: 0 <= i < |list| ==> HasRequiredKeys(list[i])
    ensures r.Success? ==> r.value == list
    ensures r.Failure? ==> r.error == MissingFields
    ensures r == Validated(list)
  {
    var i := 0;
    while i < |list|
      invariant 0 <= i <= |list|
      invariant forall j :: 0 <= j < i ==> HasRequiredKeys(list[j])
    {
      var item := list[i];
      if !("name" in item && "quantity" in item && "unit_price" in item) {
        return Failure(MissingFields);
      }
      i := i + 1;
    }
    return Success(list);
  }

  /** The result `ValidateItems` computes, for use in specifications. */
  function Validated(list: seq<JsonItem>): (r: Result<seq<JsonItem>, LlmError>)
    ensures r.Success? ==> r.value == list && forall i :: 0 <= i < |list| ==> HasRequiredKeys(list[i])
  {
    if forall i :: 0 <= i < |list| ==> HasRequiredKeys(list[i]) then Success(list)
    else Failure(MissingFields)
  }

  /** An item built by the fallback line parser. */
  datatype ParsedItem = ParsedItem(name: string, quantity: real, unitPrice: real)

  /** The dictionary the fallback parser appends for an item. */
  function ToJson(item: ParsedItem): (j: JsonItem)
    ensures HasRequiredKeys(j)
  {
    map["name" := JString(item.name), "quantity" := JNumber(item.quantity), "unit_price" := JNumber(item.unitPrice)]
  }

  function ToJsonList(items: seq<ParsedItem>): (r: seq<JsonItem>)
    ensures |r| == |items|
    ensures forall i :: 0 <= i < |items| ==> r[i] == ToJson(items[i])
  {
    seq(|items|, i requires 0 <= i < |items| => ToJson(items[i]))
  }
}
