/** server/server/services/llm/providers/openai/base.py: the API-key check of the OpenAI
    services and the fallback parser for replies that are not JSON, which reads lines of
    the form `- <quantity> x <name> ($<price> ...)`. `float(...)` is the parameter
    `parseFloat`, a partial parser. */
module OpenAIBase {
  import opened Wrappers
  import opened Text
  import opened ShoppingList

  /** The client state a service keeps: the key it authenticates with and its model. */
  datatype OpenAIClient = OpenAIClient(apiKey: string, model: string)

  const ApiKeyVar: string := "OPENAI_API_KEY"

  /** `BaseOpenAIService.__init__(model)` over the environment `env`: an absent or empty
      key raises `ValueError`. */
  function NewBaseService(env: map<string, string>, model: string): (r: Result<OpenAIClient, LlmError>)
    ensures r.Success? <==> ApiKeyVar in env && env[ApiKeyVar] != ""
    ensures r.Success? ==> r.value == OpenAIClient(env[ApiKeyVar], model)
    ensures r.Failure? ==> r.error == MissingApiKey
  {
    if ApiKeyVar !in env || env[ApiKeyVar] == "" then Failure(MissingApiKey)
    else Success(OpenAIClient(env[ApiKeyVar], model))
  }

  /** What one line contributes: nothing, or an item together with the value the loop
      variable `name` has afterwards. */
  datatype LineOutcome = NoItem | Item(item: ParsedItem, nameAfter: Option<string>)

  /** The pieces of the text between a line's first and second `-`, stripped and split
      on `x`, when the line has a `-` and there are at least two pieces. */
  function ItemParts(line: string): (r: Option<seq<string>>)
    ensures r.Some? ==> |r.value| >= 2
    ensures !Contains(line, "-") ==> r.None?
    ensures r.Some? ==> r.value == Split(Strip(Split(line, "-")[1]), "x")
  {
    if !Contains(line, "-") then None
    else
      var parts := Split(Strip(Split(line, "-")[1]), "x");
      if |parts| < 2 then None else Some(parts)
  }

  /** The name (unstripped) and price read from the second `x` piece, and the value of
      `name` afterwards. */
  datatype Priced = Priced(rawName: string, price: real, nameAfter: Option<string>)

  /** Name and price from `namePrice`: with `($`, the text before it and the first word
      after it; without, price 1.0 and whatever `name` already held, since the source
      does not assign `name` on that branch. */
  function NameAndPrice(namePrice: string, name: Option<string>, parseFloat: string -> Option<real>): Result<Priced, LlmError>
  {
    if Contains(namePrice, "($") then
      var pieces := Split(namePrice, "($");
      if |pieces| != 2 then Failure(UnpackMismatch)
      else
        match FirstToken(pieces[1])
        case None => Failure(NoPriceToken)
        case Some(token) =>
          match parseFloat(token)
          case None => Failure(BadFloat(token))
          case Some(price) => Success(Priced(pieces[0], price, Some(pieces[0])))
    else
      match name
      case None => Failure(UnboundName)
      case Some(n) => Success(Priced(n, 1.0, name))
  }

  /** The body of the parsing loop for one line. `name` is the loop variable carried over
      from the earlier lines (`None` while no line has assigned it). */
  function ParseLine(line: string, name: Option<string>, parseFloat: string -> Option<real>): Result<LineOutcome, LlmError>
  {
    match ItemParts(line)
    case None => Success(NoItem)
    case Some(parts) =>
      match parseFloat(Strip(parts[0]))
      case None => Failure(BadFloat(Strip(parts[0])))
      case Some(quantity) =>
        match NameAndPrice(Strip(parts[1]), name, parseFloat)
        case Failure(e) => Failure(e)
        case Success(Priced(n, price, name')) => Success(Item(ParsedItem(Strip(n), quantity, price), name'))
  }

  /** The items of `lines`, in line order, or the first exception a line raises. */
  function ParseLines(lines: seq<string>, name: Option<string>, parseFloat: string -> Option<real>): Result<seq<ParsedItem>, LlmError>
    decreases |lines|
  {
    if lines == [] then Success([])
    else
      match ParseLine(lines[0], name, parseFloat)
      case Failure(e) => Failure(e)
      case Success(NoItem) => ParseLines(lines[1..], name, parseFloat)
      case Success(Item(item, name')) =>
        match ParseLines(lines[1..], name', parseFloat)
        case Failure(e) => Failure(e)
        case Success(rest) => Success([item] + rest)
  }

  /** The items already collected, followed by those still to come. */
  function Prepend(items: seq<ParsedItem>, r: Result<seq<ParsedItem>, LlmError>): Result<seq<ParsedItem>, LlmError> {
    match r
    case Success(rest) => Success(items + rest)
    case Failure(e) => Failure(e)
  }

  lemma PrependNothing(r: Result<seq<ParsedItem>, LlmError>)
    ensures Prepend([], r) == r
  {
    if r.Success? {
      assert [] + r.value == r.value;
    }
  }

  lemma PrependStep(items: seq<ParsedItem>, item: ParsedItem, r: Result<seq<ParsedItem>, LlmError>)
    ensures Prepend(items, Prepend([item], r)) == Prepend(items + [item], r)
  {
    if r.Success? {
      assert items + ([item] + r.value) == (items + [item]) + r.value;
    }
  }

  /** One iteration of the parsing loop of `_parse_text_response`, on the line `line`
      with the loop variable `name` as the earlier lines left it. The outcome carries
      the item appended and the new value of `name`; a failure is the exception raised.
      `ParseLine` specifies it. */
  method ParseLineStep(line: string, name: Option<string>, parseFloat: string -> Option<real>) returns (r: Result<LineOutcome, LlmError>)
    ensures r == ParseLine(line, name, parseFloat)
  {
    if !Contains(line, "-") {
      return Success(NoItem);
    }
    var parts := Split(Strip(Split(line, "-")[1]), "x");
    if |parts| < 2 {
      return Success(NoItem);
    }
    assert ItemParts(line) == Some(parts);
    var quantity := parseFloat(Strip(parts[0]));
    if quantity.None? {
      return Failure(BadFloat(Strip(parts[0])));
    }
    var namePrice := Strip(parts[1]);
    var current := name;
    var unitPrice: real;
    if Contains(namePrice, "($") {
      var pieces := Split(namePrice, "($");
      if |pieces| != 2 {
        return Failure(UnpackMismatch);
      }
      current := Some(pieces[0]);
      var token := FirstToken(pieces[1]);
      if token.None? {
        return Failure(NoPriceToken);
      }
      var price := parseFloat(token.value);
      if price.None? {
        return Failure(BadFloat(token.value));
      }
      unitPrice := price.value;
    } else {
      unitPrice := 1.0;
    }
    if current.None? {
      return Failure(UnboundName);
    }
    assert NameAndPrice(namePrice, name, parseFloat) == Success(Priced(current.value, unitPrice, current));
    return Success(Item(ParsedItem(Strip(current.value), quantity.value, unitPrice), current));
  }

  /** `_parse_text_response(content)`: the loop over the lines of `content`, specified by
      `ParseLines`. */
  method ParseTextResponse(content: string, parseFloat: string -> Option<real>) returns (r: Result<seq<ParsedItem>, LlmError>)
    ensures r == ParseLines(Split(content, "\n"), None, parseFloat)
  {
    var lines := Split(content, "\n");
    var items: seq<ParsedItem> := [];
    var name: Option<string> := None;
    var i := 0;
    assert lines[0..] == lines;
    PrependNothing(ParseLines(lines, None, parseFloat));
    while i < |lines|
      invariant 0 <= i <= |lines|
      invariant ParseLines(lines, None, parseFloat) == Prepend(items, ParseLines(lines[i..], name, parseFloat))
    {
      assert lines[i..][0] == lines[i] && lines[i..][1..] == lines[i + 1..];
      var outcome := ParseLineStep(lines[i], name, parseFloat);
      match outcome {
        case Failure(e) => return Failure(e);
        case Success(NoItem) =>
          assert ParseLines(lines[i..], name, parseFloat) == ParseLines(lines[i + 1..], name, parseFloat);
        case Success(Item(item, name')) =>
          var later := ParseLines(lines[i + 1..], name', parseFloat);
          assert ParseLines(lines[i..], name, parseFloat) == Prepend([item], later);
          PrependStep(items, item, later);
          items := items + [item];
          name := name';
      }
      i := i + 1;
    }
    assert lines[i..] == [];
    assert items + [] == items;
    return Success(items);
  }

  /** Each line contributes at most one item. */
  lemma {:induction false} AtMostOneItemPerLine(lines: seq<string>, name: Option<string>, parseFloat: string -> Option<real>)
    requires ParseLines(lines, name, parseFloat).Success?
    ensures |ParseLines(lines, name, parseFloat).value| <= |lines|
    decreases |lines|
  {
    if lines != [] {
      match ParseLine(lines[0], name, parseFloat)
      case Success(NoItem) => AtMostOneItemPerLine(lines[1..], name, parseFloat);
      case Success(Item(_, name')) => AtMostOneItemPerLine(lines[1..], name', parseFloat);
    }
  }

  /** A line without `-` contributes nothing and leaves `name` alone. */
  lemma LineWithoutDashIsSkipped(line: string, rest: seq<string>, name: Option<string>, parseFloat: string -> Option<real>)
    requires !Contains(line, "-")
    ensures ParseLines([line] + rest, name, parseFloat) == ParseLines(rest, name, parseFloat)
  {
    assert ([line] + rest)[1..] == rest;
  }

  /** Lines made only of lines without `-` give no items. */
  lemma {:induction false} NoDashNoItems(lines: seq<string>, name: Option<string>, parseFloat: string -> Option<real>)
    requires forall i :: 0 <= i < |lines| ==> !Contains(lines[i], "-")
    ensures ParseLines(lines, name, parseFloat) == Success([])
    decreases |lines|
  {
    if lines != [] {
      NoDashNoItems(lines[1..], name, parseFloat);
    }
  }

  /** Two lines with the same text between their first and second `-` parse alike. */
  lemma OnlySecondSegmentMatters(l1: string, l2: string, name: Option<string>, parseFloat: string -> Option<real>)
    requires Contains(l1, "-") && Contains(l2, "-")
    requires Split(l1, "-")[1] == Split(l2, "-")[1]
    ensures ParseLine(l1, name, parseFloat) == ParseLine(l2, name, parseFloat)
  {
  }

  /** A line without a price as the first priced line: `name` was never assigned, so the
      parser raises `UnboundLocalError`. */
  lemma UnpricedFirstLineRaises(line: string, parseFloat: string -> Option<real>)
    requires Contains(line, "-")
    requires var parts := Split(Strip(Split(line, "-")[1]), "x");
      |parts| >= 2 && parseFloat(Strip(parts[0])).Some? && !Contains(Strip(parts[1]), "($")
    ensures ParseLines([line], None, parseFloat) == Failure(UnboundName)
  {
  }

  /** A line without a price after a priced one gets price 1.0 and the earlier line's name. */
  lemma UnpricedLineReusesName(line: string, n: string, parseFloat: string -> Option<real>)
    requires Contains(line, "-")
    requires var parts := Split(Strip(Split(line, "-")[1]), "x");
      |parts| >= 2 && parseFloat(Strip(parts[0])).Some? && !Contains(Strip(parts[1]), "($")
    ensures var parts := Split(Strip(Split(line, "-")[1]), "x");
      ParseLine(line, Some(n), parseFloat)
        == Success(Item(ParsedItem(Strip(n), parseFloat(Strip(parts[0])).value, 1.0), Some(n)))
  {
  }

  /** `s` contains neither the separators nor whitespace at its two ends. */
  predicate PlainField(s: string) {
    s != [] && !IsSpace(s[0]) && !IsSpace(s[|s| - 1]) && '-' !in s && 'x' !in s && '(' !in s
  }

  /** The text `<name> ($<p> <tail>` after a line's `x`. */
  function PricedText(name: string, p: string, tail: string): string {
    name + " ($" + p + " " + tail
  }

  /** The line `- <q> x <name> ($<p> <tail>`, the shape the parser is written for. */
  function ItemLine(q: string, name: string, p: string, tail: string): string {
    "- " + q + " x " + PricedText(name, p, tail)
  }

  lemma StripSpaceAfter(s: string)
    requires s != [] && !IsSpace(s[0]) && !IsSpace(s[|s| - 1])
    ensures Strip(s + " ") == s
  {
    StripPadding("", s, " ");
    assert "" + s + " " == s + " ";
  }

  lemma StripSpaceBefore(s: string)
    requires s != [] && !IsSpace(s[0]) && !IsSpace(s[|s| - 1])
    ensures Strip(" " + s) == s
  {
    StripPadding(" ", s, "");
    assert " " + s + "" == " " + s;
  }

  lemma DashLineRegroup(q: string, rest: string)
    ensures "- " + q + " x " + rest == "" + "-" + (" " + (q + " x " + rest) + "")
    ensures q + " x " + rest == (q + " ") + "x" + (" " + rest)
  {
    assert "- " == "-" + " ";
    assert " x " == " " + "x" + " ";
  }

  /** The `x` pieces of `- <q> x <rest>`. */
  lemma DashLineParts(q: string, rest: string)
    requires PlainField(q) && '-' !in rest && 'x' !in rest
    requires rest != [] && !IsSpace(rest[|rest| - 1])
    ensures ItemParts("- " + q + " x " + rest) == Some([q + " ", " " + rest])
  {
    var core := q + " x " + rest;
    DashLineRegroup(q, rest);
    assert '-' !in " " + core + "";
    SplitOnce("", "-", " " + core + "");
    StripPadding(" ", core, "");
    assert 'x' !in q + " " && 'x' !in " " + rest;
    SplitOnce(q + " ", "x", " " + rest);
  }

  lemma PricedTextShape(name: string, p: string, tail: string)
    requires PlainField(name) && PlainField(p) && PlainField(tail)
    ensures var t := PricedText(name, p, tail);
      '-' !in t && 'x' !in t && t[0] == name[0] && t[|t| - 1] == tail[|tail| - 1]
    ensures PricedText(name, p, tail) == (name + " ") + "($" + (p + " " + tail)
    ensures p + " " + tail == "" + (p + (" " + tail))
  {
  }

  /** The name and price read from the `x` piece of a line in the expected shape. */
  lemma PricedTextParses(name: string, p: string, tail: string, prev: Option<string>, parseFloat: string -> Option<real>)
    requires PlainField(name) && PlainField(p) && PlainField(tail)
    requires forall i :: 0 <= i < |p| ==> !IsSpace(p[i])
    requires parseFloat(p).Some?
    ensures NameAndPrice(PricedText(name, p, tail), prev, parseFloat)
      == Success(Priced(name + " ", parseFloat(p).value, Some(name + " ")))
  {
    PricedTextShape(name, p, tail);
    SplitOnce(name + " ", "($", p + " " + tail);
    StripLeftBlankPrefix("", p + " " + tail);
    TakeWord(p, " " + tail);
  }

  /** The stripped `x` pieces of a line in the expected shape. */
  lemma ItemLinePieces(q: string, name: string, p: string, tail: string)
    requires PlainField(q) && PlainField(name) && PlainField(p) && PlainField(tail)
    ensures var parts := ItemParts(ItemLine(q, name, p, tail));
      parts.Some? && Strip(parts.value[0]) == q && Strip(parts.value[1]) == PricedText(name, p, tail)
  {
    var t := PricedText(name, p, tail);
    PricedTextShape(name, p, tail);
    DashLineParts(q, t);
    StripSpaceAfter(q);
    StripSpaceBefore(t);
  }

  /** A line in the expected shape gives the item it describes: the stripped name, the
      quantity `q` and the price `p`, the first word after `($`. */
  lemma ItemLineParses(q: string, name: string, p: string, tail: string, prev: Option<string>, parseFloat: string -> Option<real>)
    requires PlainField(q) && PlainField(name) && PlainField(p) && PlainField(tail)
    requires forall i :: 0 <= i < |p| ==> !IsSpace(p[i])
    requires parseFloat(q).Some? && parseFloat(p).Some?
    ensures ParseLine(ItemLine(q, name, p, tail), prev, parseFloat)
      == Success(Item(ParsedItem(name, parseFloat(q).value, parseFloat(p).value), Some(name + " ")))
  {
    ItemLinePieces(q, name, p, tail);
    PricedTextParses(name, p, tail, prev, parseFloat);
    StripSpaceAfter(name);
  }

  /** Content without a line break is a single line. */
  lemma SingleLine(content: string)
    requires '\n' !in content
    ensures Split(content, "\n") == [content]
  {
    LacksFirst(content, "\n");
  }

  /** A single line that yields an item gives a list of that item alone. */
  lemma SingleLineItem(line: string, name: Option<string>, parseFloat: string -> Option<real>, item: ParsedItem, name': Option<string>)
    requires ParseLine(line, name, parseFloat) == Success(Item(item, name'))
    ensures ParseLines([line], name, parseFloat) == Success([item])
  {
    assert [line][1..] == [];
    assert [item] + [] == [item];
  }

  /** Content made of one item line parses to exactly that item. */
  lemma SingleItemLineParses(q: string, name: string, p: string, tail: string, parseFloat: string -> Option<real>)
    requires PlainField(q) && PlainField(name) && PlainField(p) && PlainField(tail)
    requires forall i :: 0 <= i < |p| ==> !IsSpace(p[i])
    requires '\n' !in ItemLine(q, name, p, tail)
    requires parseFloat(q).Some? && parseFloat(p).Some?
    ensures ParseLines(Split(ItemLine(q, name, p, tail), "\n"), None, parseFloat)
      == Success([ParsedItem(name, parseFloat(q).value, parseFloat(p).value)])
  {
    var line := ItemLine(q, name, p, tail);
    SingleLine(line);
    ItemLineParses(q, name, p, tail, None, parseFloat);
    SingleLineItem(line, None, parseFloat, ParsedItem(name, parseFloat(q).value, parseFloat(p).value), Some(name + " "));
  }
}
