/** server/server/services/llm/providers/openai/gpt35.py: the reply handling of
    `GPT35TurboService.text_to_shopping_list`. The chat completion is not modelled: the
    reply text is an input, and `json.loads` is the parameter `decode`. */
module Gpt35 {
  import opened Wrappers
  import opened Text
  import opened ShoppingList
  import opened OpenAIBase

  const Fence: string := "```"

  /** The text between the first and the last line break of `c`, given the index `k` of
      its first line break: `split("\n", 1)[1]` followed by `rsplit("\n", 1)[0]`. */
  function InnerLines(c: string, k: nat): (body: string)
    requires k < |c|
    ensures |body| <= |c| - k - 1 && body == c[k + 1..k + 1 + |body|]
    ensures k + 1 + |body| < |c| ==> c[k + 1 + |body|] == '\n' && forall j :: k + 1 + |body| < j < |c| ==> c[j] != '\n'
    ensures k + 1 + |body| == |c| ==> forall j :: k < j < |c| ==> c[j] != '\n'
  {
    var rest := c[k + 1..];
    match FindLast(rest, '\n')
    case None => rest
    case Some(j) => rest[..j]
  }

  /** The markdown clean-up of the reply: strip it and, when it opens with a fence, drop
      its first and last lines and a leading `json` tag (in any case). A fenced reply
      without a line break raises `IndexError`. */
  function CleanContent(content: string): (r: Result<string, LlmError>)
    ensures !StartsWith(Strip(content), Fence) ==> r == Success(Strip(content))
    ensures r.Failure? <==> StartsWith(Strip(content), Fence) && !Contains(Strip(content), "\n")
    ensures r.Failure? ==> r.error == NoNewline
  {
    var c := Strip(content);
    if !StartsWith(c, Fence) then Success(c)
    else
      match Find(c, "\n")
      case None => Failure(NoNewline)
      case Some(k) =>
        var body := InnerLines(c, k);
        if StartsWith(Lower(body), "json") then Success(Strip(body[4..])) else Success(body)
  }

  /** The first line break of a fenced reply whose first line is `Fence + tag`. */
  lemma FirstBreak(tag: string, body: string)
    requires '\n' !in tag
    ensures Find(Fence + tag + "\n" + body + "\n" + Fence, "\n") == Some(|Fence| + |tag|)
  {
    var c := Fence + tag + "\n" + body + "\n" + Fence;
    var k := |Fence| + |tag|;
    assert c[k] == '\n';
    assert c[k..k + 1] == "\n";
    forall j | 0 <= j < k
      ensures !OccursAt(c, "\n", j)
    {
      if j < |Fence| {
        assert c[j] == Fence[j];
      } else {
        assert c[j] == tag[j - |Fence|];
      }
      assert c[j..j + 1][0] == c[j];
    }
    FindAt(c, "\n", k);
  }

  /** The inner lines of a fenced reply are exactly its body, whatever line breaks the
      body itself holds. */
  lemma InnerLinesOfFence(tag: string, body: string)
    requires '\n' !in tag
    ensures var c := Fence + tag + "\n" + body + "\n" + Fence;
      InnerLines(c, |Fence| + |tag|) == body
  {
    var c := Fence + tag + "\n" + body + "\n" + Fence;
    var k := |Fence| + |tag|;
    var b := InnerLines(c, k);
    assert c[k + 1 + |body|] == '\n';
    forall j | k + 1 + |body| < j < |c|
      ensures c[j] == '`'
    {
    }
    assert |b| == |body|;
    assert c[k + 1..k + 1 + |body|] == body;
  }

  /** A fenced reply gives back its body: unchanged when it does not open with `json`, and
      stripped of that tag and surrounding whitespace otherwise. The tag on the opening
      line is dropped with that line. */
  lemma FencedReply(tag: string, body: string)
    requires '\n' !in tag
    ensures var c := Fence + tag + "\n" + body + "\n" + Fence;
      CleanContent(c) == if StartsWith(Lower(body), "json") then Success(Strip(body[4..])) else Success(body)
  {
    var c := Fence + tag + "\n" + body + "\n" + Fence;
    StripKeeps(c);
    assert c[..|Fence|] == Fence;
    FirstBreak(tag, body);
    InnerLinesOfFence(tag, body);
  }

  /** What the service makes of a cleaned reply: a decoded list is returned after the
      key check, and text that is not JSON goes through the line parser. */
  function DecodeOrParse(content: string, decode: string -> Decoded, parseFloat: string -> Option<real>): (r: Result<seq<JsonItem>, LlmError>)
    ensures r.Success? ==> forall i :: 0 <= i < |r.value| ==> HasRequiredKeys(r.value[i])
    ensures decode(content).JsonList? ==>
      var items := decode(content).items;
      (r.Success? <==> forall i :: 0 <= i < |items| ==> HasRequiredKeys(items[i]))
      && (r.Success? ==> r.value == items)
      && (r.Failure? ==> r.error == MissingFields)
    ensures decode(content).NotJson? ==>
      (r.Success? <==> ParseLines(Split(content, "\n"), None, parseFloat).Success?)
      && (r.Success? ==> r.value == ToJsonList(ParseLines(Split(content, "\n"), None, parseFloat).value))
  {
    match decode(content)
    case JsonList(items) => Validated(items)
    case NotJson =>
      match ParseLines(Split(content, "\n"), None, parseFloat)
      case Success(parsed) => Success(ToJsonList(parsed))
      case Failure(e) => Failure(e)
  }

  /** `text_to_shopping_list` applied to the model's reply `reply`. */
  function ShoppingListReply(reply: string, decode: string -> Decoded, parseFloat: string -> Option<real>): (r: Result<seq<JsonItem>, LlmError>)
    ensures r.Success? ==> forall i :: 0 <= i < |r.value| ==> HasRequiredKeys(r.value[i])
    ensures CleanContent(reply).Failure? ==> r == Failure(NoNewline)
  {
    var content :- CleanContent(reply);
    DecodeOrParse(content, decode, parseFloat)
  }

  /** The body of `text_to_shopping_list` after the chat completion: the reassignments of
      `content`, then the validation loop or the fallback parser, as `ShoppingListReply`
      specifies. */
  method TextToShoppingList(reply: string, decode: string -> Decoded, parseFloat: string -> Option<real>) returns (r: Result<seq<JsonItem>, LlmError>)
    ensures r == ShoppingListReply(reply, decode, parseFloat)
  {
    var content := Strip(reply);
    if StartsWith(content, Fence) {
      var k := Find(content, "\n");
      if k.None? {
        return Failure(NoNewline);
      }
      var rest := content[k.value + 1..];
      var j := FindLast(rest, '\n');
      if j.Some? {
        rest := rest[..j.value];
      }
      assert rest == InnerLines(content, k.value);
      content := rest;
      if StartsWith(Lower(content), "json") {
        content := Strip(content[4..]);
      }
    }
    assert CleanContent(reply) == Success(content);
    var decoded := decode(content);
    if decoded.JsonList? {
      r := ValidateItems(decoded.items);
    } else {
      var parsed := ParseTextResponse(content, parseFloat);
      if parsed.Failure? {
        return Failure(parsed.error);
      }
      r := Success(ToJsonList(parsed.value));
    }
  }

  /** The list inside a fenced reply is decoded and checked like an unfenced one. */
  lemma FencedJsonReply(tag: string, body: string, decode: string -> Decoded, parseFloat: string -> Option<real>)
    requires '\n' !in tag && !StartsWith(Lower(body), "json")
    requires decode(body).JsonList?
    ensures ShoppingListReply(Fence + tag + "\n" + body + "\n" + Fence, decode, parseFloat)
      == Validated(decode(body).items)
  {
    FencedReply(tag, body);
  }

  /** An item line needs no clean-up. */
  lemma ItemLineIsClean(q: string, name: string, p: string, tail: string)
    requires PlainField(q) && PlainField(name) && PlainField(p) && PlainField(tail)
    ensures CleanContent(ItemLine(q, name, p, tail)) == Success(ItemLine(q, name, p, tail))
  {
    var line := ItemLine(q, name, p, tail);
    PricedTextShape(name, p, tail);
    assert line[0] == '-' && line[|line| - 1] == tail[|tail| - 1];
    StripKeeps(line);
    assert line[..|Fence|][0] == '-';
  }

  /** A reply of one item line that is not JSON yields that one item. */
  lemma SingleItemLineReply(q: string, name: string, p: string, tail: string, decode: string -> Decoded, parseFloat: string -> Option<real>)
    requires PlainField(q) && PlainField(name) && PlainField(p) && PlainField(tail)
    requires forall i :: 0 <= i < |p| ==> !IsSpace(p[i])
    requires '\n' !in ItemLine(q, name, p, tail)
    requires parseFloat(q).Some? && parseFloat(p).Some?
    requires decode(ItemLine(q, name, p, tail)) == NotJson
    ensures ShoppingListReply(ItemLine(q, name, p, tail), decode, parseFloat)
      == Success([ToJson(ParsedItem(name, parseFloat(q).value, parseFloat(p).value))])
  {
    var line := ItemLine(q, name, p, tail);
    var item := ParsedItem(name, parseFloat(q).value, parseFloat(p).value);
    ItemLineIsClean(q, name, p, tail);
    assert ShoppingListReply(line, decode, parseFloat) == DecodeOrParse(line, decode, parseFloat);
    SingleItemLineParses(q, name, p, tail, parseFloat);
    var r := ToJsonList([item]);
    assert |r| == 1 && r[0] == ToJson(item);
    assert r == [ToJson(item)];
  }
}
