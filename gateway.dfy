/** The recipe gateway: it renders the cart into a prompt for the
    generative-language service, declares the response schema, and turns
    every failure of the call into a fixed fallback recipe. The service call
    and `JSON.parse` are parameters: `generate` says how the call for a given
    request ends, and `parse` says what `JSON.parse` does with a text. `clientBuilt` says whether constructing the client
    succeeded; that statement stands before the `try` block. */
module Gateway {
  import opened Types
  import Text

  /** The response-schema descriptor of the service. */
  datatype Schema =
    | StringType
    | ArrayType(items: Schema)
    | ObjectType(properties: seq<(string, Schema)>, required: seq<string>)

  /** A `generateContent` request. */
  datatype Request = Request(
    model: string,
    contents: string,
    responseMimeType: Option<string>,
    responseSchema: Option<Schema>)

  /** How the awaited `generateContent` call ends: it rejects (network,
      quota, schema validation), or resolves with a response whose `text`
      may be undefined. */
  datatype Reply = Failed | Responded(text: Option<string>)

  /** What `JSON.parse` does with a text: it throws, or yields a falsy JSON
      value (`null`, `false`, `0` or `""`), which the page treats as no
      recipe, or yields a recipe object. */
  datatype Parsed = Throws | Falsy | Recipe(recipe: AIResponse)

  /** How the promise of an async function settles. */
  datatype Settled<T> = Resolved(value: T) | Rejected

  const RecipeModel: string := "gemini-3-pro-preview"
  const InsightModel: string := "gemini-3-flash-preview"
  const JsonMimeType: string := "application/json"

  /** One cart line in the prompt: the rendered quantity, then "x ", then
      the product name. */
  function ItemLabel(item: CartItem): (s: string)
    ensures var n := |s| - |item.product.name| - 2;
      n >= 1 && s[..n] == Text.IntToString(item.quantity) &&
      s[n..n + 2] == "x " && s[n + 2..] == item.product.name
  {
    var q := Text.IntToString(item.quantity);
    var s := q + "x " + item.product.name;
    assert s[..|q|] == q && s[|q|..|q| + 2] == "x " && s[|q| + 2..] == item.product.name;
    s
  }

  function Labels(cart: seq<CartItem>): (labels: seq<string>)
    ensures |labels| == |cart|
  {
    seq(|cart|, i requires 0 <= i < |cart| => ItemLabel(cart[i]))
  }

  /** The cart lines rendered in cart order and joined by ", ": empty exactly
      for the empty cart, and led by the first line's label. */
  function ItemsList(cart: seq<CartItem>): (r: string)
    ensures r == "" <==> cart == []
    ensures cart != [] ==> |ItemLabel(cart[0])| <= |r| && r[..|ItemLabel(cart[0])|] == ItemLabel(cart[0])
  {
    var labels := Labels(cart);
    assert cart != [] ==> Text.TotalLength(labels) >= |labels[0]| >= 3;
    Text.Join(labels, ", ")
  }

  /** A label shows the line's quantity: two labels for the same name are
      equal only when the quantities are. */
  lemma ItemLabelShowsQuantity(a: CartItem, b: CartItem)
    requires a.product.name == b.product.name
    requires ItemLabel(a) == ItemLabel(b)
    ensures a.quantity == b.quantity
  {
    var s := ItemLabel(a);
    var n := |s| - |a.product.name| - 2;
    var qa, qb := Text.IntToString(a.quantity), Text.IntToString(b.quantity);
    assert qa == s[..n] == qb;
    assert (a.quantity < 0) == (b.quantity < 0);
  }

  /** The item list of a single line is that line's label. */
  lemma ItemsListSingle(item: CartItem)
    ensures ItemsList([item]) == ItemLabel(item)
  {
    assert Labels([item]) == [ItemLabel(item)];
  }

  /** Appending a line appends ", " and its label to a non-empty item list. */
  lemma ItemsListAppend(cart: seq<CartItem>, item: CartItem)
    requires cart != []
    ensures ItemsList(cart + [item]) == ItemsList(cart) + ", " + ItemLabel(item)
  {
    assert Labels(cart + [item]) == Labels(cart) + [ItemLabel(item)];
    Text.JoinAppend(Labels(cart), [ItemLabel(item)], ", ");
  }

  const PromptHead: string := "I have these groceries in my cart: "
  const PromptTail: string :=
    ". \n  Suggest a creative recipe I can cook using primarily these ingredients. \n  If I'm missing something important, mention it as a \"pro tip\"."

  /** The recipe prompt: the fixed template with the item list after
      "I have these groceries in my cart: ". By the second `ensures`, equal
      prompts embed equal item lists. */
  function RecipePrompt(cart: seq<CartItem>): (p: string)
    ensures |p| == |PromptHead| + |ItemsList(cart)| + |PromptTail|
    ensures p[..|PromptHead|] == PromptHead
    ensures p[|PromptHead|..|p| - |PromptTail|] == ItemsList(cart)
    ensures p[|p| - |PromptTail|..] == PromptTail
  {
    var p := PromptHead + ItemsList(cart) + PromptTail;
    assert p[..|PromptHead|] == PromptHead;
    assert p[|PromptHead|..|p| - |PromptTail|] == ItemsList(cart);
    p
  }

  /** The five fields every recipe response must have. */
  const RecipeFields: seq<string> := ["recipeName", "ingredients", "instructions", "estimatedTime", "tips"]

  function Keys(properties: seq<(string, Schema)>): (keys: seq<string>)
    ensures |keys| == |properties|
  {
    seq(|properties|, i requires 0 <= i < |properties| => properties[i].0)
  }

  /** The response schema: an object whose five properties mirror the
      fields of `AIResponse` and are all required. */
  function RecipeSchema(): (s: Schema)
    ensures s.ObjectType?
    ensures s.required == RecipeFields
    ensures Keys(s.properties) == s.required
    ensures forall i :: 0 <= i < |s.properties| ==>
      s.properties[i].1 ==
        if s.properties[i].0 == "ingredients" || s.properties[i].0 == "instructions"
        then ArrayType(StringType) else StringType
  {
    ObjectType(
      [("recipeName", StringType),
       ("ingredients", ArrayType(StringType)),
       ("instructions", ArrayType(StringType)),
       ("estimatedTime", StringType),
       ("tips", StringType)],
      RecipeFields)
  }

  /** The request `getRecipeSuggestions` sends for a cart. */
  function RecipeRequest(cart: seq<CartItem>): (req: Request)
    ensures req.contents == RecipePrompt(cart)
    ensures req.responseMimeType == Some(JsonMimeType)
    ensures req.responseSchema == Some(RecipeSchema())
  {
    Request(RecipeModel, RecipePrompt(cart), Some(JsonMimeType), Some(RecipeSchema()))
  }

  const FallbackName: string := "Farm Fresh Medley"
  const FallbackInstructions: seq<string> := [
    "Rinse all ingredients thoroughly.",
    "Saute in Abhyuday Wood-Pressed Oil until tender.",
    "Season with salt and pepper to taste."]
  const FallbackTime: string := "15 mins"
  const FallbackTips: string := "Always use fresh ingredients for the best H3+ quality experience."

  /** The fallback recipe: fixed text, with the cart's product names, in
      cart order and without quantities, as the ingredients. */
  function Fallback(cart: seq<CartItem>): (r: AIResponse)
    ensures r.recipeName == FallbackName && r.instructions == FallbackInstructions
    ensures r.estimatedTime == FallbackTime && r.tips == FallbackTips
    ensures |r.ingredients| == |cart|
    ensures forall i :: 0 <= i < |cart| ==> r.ingredients[i] == cart[i].product.name
  {
    AIResponse(
      FallbackName,
      seq(|cart|, i requires 0 <= i < |cart| => cart[i].product.name),
      FallbackInstructions,
      FallbackTime,
      FallbackTips)
  }

  /** The fallback depends on the names of the lines alone. */
  lemma FallbackIgnoresQuantities(a: seq<CartItem>, b: seq<CartItem>)
    requires |a| == |b| && forall i :: 0 <= i < |a| ==> a[i].product.name == b[i].product.name
    ensures Fallback(a) == Fallback(b)
  {
    assert Fallback(a).ingredients == Fallback(b).ingredients;
  }

  /** A reply whose text `if (!text)` lets through: a resolved call with a
      defined, non-empty text. A failed call never has text. */
  predicate HasText(reply: Reply)
    ensures HasText(reply) ==> reply.Responded? && reply.text.Some? && |reply.text.value| > 0
    ensures reply.Responded? && reply.text.Some? && reply.text.value != "" ==> HasText(reply)
  {
    reply.Responded? && reply.text.Some? && reply.text.value != ""
  }

  /** `getRecipeSuggestions`. Inside the `try` block every way the call can
      end resolves: a failed call, an undefined or empty text and a text
      `JSON.parse` rejects give the fallback; otherwise the parsed value is
      returned as it is, a falsy one as `None`. Only a failure to build the
      client rejects. */
  function GetRecipeSuggestions(
    cart: seq<CartItem>,
    clientBuilt: bool,
    generate: Request -> Reply,
    parse: string -> Parsed): (r: Settled<Option<AIResponse>>)
    ensures r.Resolved? <==> clientBuilt
    ensures clientBuilt && !HasText(generate(RecipeRequest(cart))) ==> r == Resolved(Some(Fallback(cart)))
    ensures clientBuilt && HasText(generate(RecipeRequest(cart))) ==>
      var parsed := parse(Text.Trim(generate(RecipeRequest(cart)).text.value));
      (parsed.Throws? ==> r == Resolved(Some(Fallback(cart)))) &&
      (parsed.Falsy? ==> r == Resolved(None)) &&
      (parsed.Recipe? ==> r == Resolved(Some(parsed.recipe)))
  {
    if !clientBuilt then Rejected
    else
      var reply := generate(RecipeRequest(cart));
      if !HasText(reply) then Resolved(Some(Fallback(cart)))
      else
        match parse(Text.Trim(reply.text.value))
        case Throws => Resolved(Some(Fallback(cart)))
        case Falsy => Resolved(None)
        case Recipe(v) => Resolved(Some(v))
  }

  /** A built client resolves to no recipe exactly when the service text
      passes the empty check and `JSON.parse` turns it into a falsy value,
      as it does for the text "null". */
  lemma NoRecipeOnlyWhenFalsy(
    cart: seq<CartItem>,
    generate: Request -> Reply,
    parse: string -> Parsed)
    ensures GetRecipeSuggestions(cart, true, generate, parse) == Resolved(None) <==>
      HasText(generate(RecipeRequest(cart))) &&
      parse(Text.Trim(generate(RecipeRequest(cart)).text.value)).Falsy?
  {
  }

  /** A text of white space only passes the empty check, trims to "" and so
      falls back, given that `JSON.parse("")` throws. */
  lemma WhitespaceTextFallsBack(
    cart: seq<CartItem>,
    generate: Request -> Reply,
    parse: string -> Parsed)
    requires generate(RecipeRequest(cart)).Responded?
    requires generate(RecipeRequest(cart)).text.Some?
    requires Text.AllWhitespace(generate(RecipeRequest(cart)).text.value)
    requires parse("") == Throws
    ensures GetRecipeSuggestions(cart, true, generate, parse) == Resolved(Some(Fallback(cart)))
  {
    Text.TrimEmpty(generate(RecipeRequest(cart)).text.value);
  }

  /** Whatever the service does, a built client yields the fallback, no
      recipe, or a recipe `JSON.parse` produced. */
  lemma RecipeAlwaysResolves(
    cart: seq<CartItem>,
    generate: Request -> Reply,
    parse: string -> Parsed)
    ensures var r := GetRecipeSuggestions(cart, true, generate, parse);
      r.Resolved? &&
      (r.value == Some(Fallback(cart)) || r.value == None || exists t :: parse(t) == Recipe(r.value.value))
  {
    var r := GetRecipeSuggestions(cart, true, generate, parse);
    var reply := generate(RecipeRequest(cart));
    if HasText(reply) && parse(Text.Trim(reply.text.value)).Recipe? {
      assert parse(Text.Trim(reply.text.value)) == Recipe(r.value.value);
    }
  }

  const InsightPromptHead: string := "Provide a very brief (2 sentences max) nutritional fun fact about "
  const NoInsights: string := "No insights found for this product."
  const InsightsUnavailable: string := "Nutritional facts are currently unavailable."

  /** The request `getNutritionInsight` sends: a one-line prompt naming the
      product, no schema. */
  function InsightRequest(productName: string): (req: Request)
    ensures req.contents == InsightPromptHead + productName + "."
    ensures req.responseSchema == None && req.responseMimeType == None
  {
    Request(InsightModel, InsightPromptHead + productName + ".", None, None)
  }

  /** `getNutritionInsight`: the response text when there is any, one fixed
      string for an empty or undefined text and another for a failed call;
      only a failure to build the client rejects. */
  function GetNutritionInsight(
    productName: string,
    clientBuilt: bool,
    generate: Request -> Reply): (r: Settled<string>)
    ensures r.Resolved? <==> clientBuilt
    ensures r.Resolved? ==> r.value != ""
    ensures clientBuilt && HasText(generate(InsightRequest(productName))) ==>
      r.value == generate(InsightRequest(productName)).text.value
    ensures clientBuilt && generate(InsightRequest(productName)).Responded? ==>
      (HasText(generate(InsightRequest(productName))) || r.value == NoInsights)
    ensures clientBuilt && generate(InsightRequest(productName)).Failed? ==> r.value == InsightsUnavailable
  {
    if !clientBuilt then Rejected
    else
      match generate(InsightRequest(productName))
      case Failed => Resolved(InsightsUnavailable)
      case Responded(text) =>
        if text.Some? && text.value != "" then Resolved(text.value) else Resolved(NoInsights)
  }
}
