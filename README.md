# Organic grocery storefront: cart state and recipe gateway

This project models the logic core of a single-page storefront for an
organic-grocery brand. Two parts are modelled.

- **The cart state manager.** The page keeps `cart` as an ordered array of
  cart lines. `addToCart` merges by product id. `updateQuantity` clamps the
  new quantity at zero and then drops lines whose quantity is not positive.
  `cartCount` and `cartTotal` are folds recomputed from the array. The page
  also has a category filter, a countdown tick for the deals banner, and
  the empty-cart gate and busy/modal flags of `handleGenerateRecipe`.
- **The recipe gateway.** It renders the cart into a prompt and declares a
  five-field response schema. Any failure of the service call becomes a
  fixed fallback recipe built from the cart's product names. A second,
  simpler call returns a nutrition fact or one of two fixed strings.

Modules:

- `Types` (types.dfy): the records.
- `Cart` (cart.dfy): cart updates, sums, and their invariants.
- `Catalog` (catalog.dfy): the category filter.
- `Countdown` (countdown.dfy): the banner tick.
- `Text` (text.dfy): JavaScript number rendering, `join` and `trim`.
- `Gateway` (gateway.dfy): prompt, schema, fallback, both service calls.
- `Storefront` (storefront.dfy): class `App`, whose fields are the page's
  state cells and whose methods are its handlers.

The service call and `JSON.parse` are parameters of the gateway functions:

- `generate: Request -> Reply` says how the call for a given request ends
  (`Failed`, or `Responded` with a text that may be undefined).
- `parse: string -> Parsed` is `JSON.parse`: `Throws`, `Falsy` for a
  falsy JSON value (`null`, `false`, `0`, `""`), which the page shows as
  no recipe, or `Recipe` for a complete `AIResponse` object; see
  "## Left out" for the JSON values this does not cover.
- `clientBuilt: bool` says whether constructing the SDK client succeeded.

Prices are exact integers (cents). Quantities and deltas are unbounded
integers; "## Left out" says where JavaScript numbers differ.

Where the intended behaviour and the code differ, the model follows the code:

- A recipe request is meant never to fail for its caller. But the client
  construction in both gateway functions (geminiService.ts:9 and :65)
  stands before the `try` block. If it throws, the promise rejects, so
  "always resolves" holds only for the `try` block. `GetRecipeSuggestions` returns `Rejected` exactly when
  `clientBuilt` is false. `handleGenerateRecipe`'s own `catch`
  (App.tsx:193-194) then leaves `aiRecipe` as it was.
- A result that arrives after the recipe view was dismissed is meant to be
  dropped. The code has no such guard: `FinishRecipe` stores the result
  whatever the modal flag is.
- The nutrition call is meant to have one "facts unavailable" fallback.
  The code has two: "No
  insights found for this product." and "Nutritional facts are currently
  unavailable."
- `updateQuantity`'s filter drops every line with a non-positive quantity,
  not only the line it changed. On a well-formed cart this makes no
  difference (`Cart.UpdatePresent`).
- A response missing a required schema field is meant to take the fallback
  path. The code does not check the parsed object
  (geminiService.ts:46): whatever `JSON.parse` returns is returned.
- A service text such as "null" parses without throwing, so it gets no
  fallback: the page stores the falsy value and shows no recipe
  (App.tsx:191-192, 591) although the modal is open
  (`Gateway.NoRecipeOnlyWhenFalsy`).

## Model

| member | source | states |
|---|---|---|
| `Cart.Find` | App.tsx:165 | finds a line exactly when some line has the id; the line found is in the cart and has that id (that it is the first such line is `Cart.FindFirst`) |
| `Cart.FindFirst` | App.tsx:165 | when line k is the first line with the id, the line found is exactly line k, as `Array.prototype.find` returns the first match |
| `Cart.Increment` | App.tsx:167 | the `map` keeps every line's product and position; lines with the id gain exactly one unit, all others are unchanged |
| `Cart.AddToCart` | App.tsx:163-171 | a new id appends one line of quantity 1 at the end; a present id keeps length and products and adds one unit to the lines with that id; the id is present afterwards; the cart invariant is preserved |
| `Cart.AddExisting` | App.tsx:165-167 | in a cart with unique ids, adding a present product increments exactly that line by one; all other lines and their order stay the same |
| `Cart.AddSums` | App.tsx:163-184 | adding raises the count by exactly 1 and the total by the unit price of the line that got the unit (the existing line's price, or the new product's) |
| `Cart.SetQuantity` | App.tsx:174-179 | the `map` keeps every line's product and position; a line with the id gets exactly max(0, q + delta); other lines unchanged |
| `Cart.AddSumsAt` | App.tsx:163-184 | adding a product whose id is at line k raises the count by 1 and the total by exactly that line's price |
| `Cart.KeepPositive` | App.tsx:180 | the filter leaves only positive quantities and returns a cart with all positive lines unchanged |
| `Cart.KeepPositiveMembers` | App.tsx:180 | an entry survives the filter iff it was there with a positive quantity; unique ids stay unique |
| `Cart.KeepPositiveAppend` | App.tsx:180 | the filter keeps order: it distributes over concatenation |
| `Cart.KeepPositiveCons` | App.tsx:180 | the filter keeps a leading line exactly when its quantity is positive |
| `Cart.KeepPositiveReplace` | App.tsx:180 | filtering a positive cart with one line replaced keeps the replacement in place, or removes just it when it is not positive |
| `Cart.SetQuantityAt` | App.tsx:174-179 | with unique ids the map changes only the matching line, to quantity max(0, q + delta) |
| `Cart.UpdateQuantity` | App.tsx:173-181 | every quantity in the result is at least 1; unique ids stay unique; an absent id leaves a cart of positive lines unchanged; the cart never grows |
| `Cart.UpdatePresent` | App.tsx:173-181 | on a well-formed cart the line with the id gets max(0, q + delta) and is removed exactly when that is 0; the other lines keep their order |
| `Cart.RemoveLine` | App.tsx:551 | the trash button's `updateQuantity(id, -q)` removes exactly that line, and the id is no longer in the cart |
| `Cart.UpdateSums` | App.tsx:173-184 | after `updateQuantity` the count and total change by exactly the line's change of quantity (times its price) |
| `Cart.RunPreservesWellFormed` | App.tsx:163-181 | every sequence of adds and quantity changes keeps ids unique and every quantity at least 1 |
| `Cart.AddDistinct` | App.tsx:163-171 | adding distinct new products appends one line of quantity 1 per product, in order |
| `Cart.AddDistinctCount` | App.tsx:163-183 | from an empty cart, n adds of distinct products give n lines of quantity 1 and an item count of n |
| `Cart.CountFold` | App.tsx:183 | the `reduce` from an accumulator equals the accumulator plus the sum of quantities |
| `Cart.TotalFold` | App.tsx:184 | the `reduce` from an accumulator equals the accumulator plus the sum of price times quantity |
| `Cart.CartCount` | App.tsx:183 | `cartCount` is the sum of the quantities, and is at least the number of lines when all quantities are positive |
| `Cart.CartTotal` | App.tsx:184 | `cartTotal` is the sum of price times quantity, and is non-negative for non-negative prices and quantities |
| `Cart.CountCoversLines` | App.tsx:183 | with positive quantities the count is at least the number of lines |
| `Cart.TotalNonNegative` | App.tsx:184 | non-negative prices and quantities give a non-negative total |
| `Cart.SumsAppend` | App.tsx:183-184 | both sums are additive over concatenation |
| `Cart.SumsReplace` | App.tsx:183-184 | replacing one line changes each sum by exactly that line's difference |
| `Cart.SumsRemove` | App.tsx:183-184 | removing one line takes exactly its contribution out of each sum |
| `Cart.ExampleTotals` | App.tsx:183-184 | 2 x 12.50 and 1 x 8.00 give a count of 3 and a total of 33.00 |
| `Catalog.ByCategory` | App.tsx:160 | a product is kept iff it is in the catalog and has the category, with its multiplicity |
| `Catalog.FilteredProducts` | App.tsx:158-161 | the "all" tab shows the catalog unchanged; any other tab shows exactly the catalog's products of that category |
| `Catalog.ByCategoryAppend` | App.tsx:160 | the filter keeps the catalog's order: it distributes over concatenation |
| `Catalog.ByCategoryIdempotent` | App.tsx:160 | filtering twice equals filtering once |
| `Countdown.FromSeconds` | App.tsx:40-45 | turns a number of seconds into an in-range reading that stands for it |
| `Countdown.Tick` | App.tsx:40-45 | never gives a negative field for a non-negative reading; 0:0:0 is a fixed point; for an in-range reading the result is in range and stands for one second less, stopping at 0 |
| `Countdown.SecondsDetermine` | App.tsx:40-45 | an in-range reading is recovered from its number of seconds |
| `Countdown.TickIsOneSecond` | App.tsx:40-45 | on an in-range reading a tick equals the reading for one second less, stopping at 0 |
| `Countdown.TicksCountDown` | App.tsx:40-45 | after n ticks an in-range reading stands for max(0, seconds - n) and is still in range |
| `Countdown.RunsOut` | App.tsx:40-45 | a countdown reaches 0:0:0 after n ticks iff n is at least its number of seconds |
| `Countdown.StartRunsOut` | App.tsx:36-45 | the banner's initial 12:45:00 reaches 00:00:00 exactly once 45900 ticks have passed, and stays there |
| `Text.NatToString` | geminiService.ts:10 | a quantity renders as a non-empty run of decimal digits with no leading zero |
| `Text.IntToString` | geminiService.ts:10 | the text starts with a minus sign exactly for a negative number; the digits after it read back to the number's magnitude |
| `Text.NatToStringRoundTrip` | geminiService.ts:10 | reading the rendered digits back gives the number |
| `Text.NatToStringInjective` | geminiService.ts:10 | distinct numbers render differently |
| `Text.JoinAppend` | geminiService.ts:10 | joining two non-empty lists puts exactly one separator between their joins |
| `Text.Join` | geminiService.ts:10 | a non-empty join is as long as its parts plus one separator between each two, and begins with the first part |
| `Text.LeadingWhitespace` | geminiService.ts:46 | the leading run it measures is all white space and is followed by a non-white-space character or the end |
| `Text.TrailingWhitespace` | geminiService.ts:46 | the trailing run it finds is all white space and follows a non-white-space character or the start |
| `Text.Trim` | geminiService.ts:46 | the result is the input with its leading white-space run and its trailing white-space run cut off: it is the slice right after the leading run, all that follows it is white space, and it has no white space at either end |
| `Text.TrimEmpty` | geminiService.ts:46 | trimming gives "" iff the text is all white space |
| `Text.TrimIdentity` | geminiService.ts:46 | a text with no white space at either end is its own trim |
| `Gateway.ItemLabel` | geminiService.ts:10 | a label is the rendered quantity, then "x ", then the product name |
| `Gateway.ItemLabelShowsQuantity` | geminiService.ts:10 | two labels for the same name are equal only when the quantities are |
| `Gateway.ItemsListSingle` | geminiService.ts:10 | a one-line cart's item list is its `<quantity>x <name>` label |
| `Gateway.ItemsListAppend` | geminiService.ts:10 | appending a line appends ", " and its label to a non-empty item list |
| `Gateway.ItemsList` | geminiService.ts:10 | the item list is empty iff the cart is, and starts with the first line's label |
| `Gateway.RecipePrompt` | geminiService.ts:12-14 | the prompt is the fixed head "I have these groceries in my cart: ", then the item list, then the fixed tail |
| `Gateway.RecipeSchema` | geminiService.ts:22-38 | the schema is an object; its required list is exactly recipeName, ingredients, instructions, estimatedTime, tips; it has exactly those properties, in that order; the two lists are string arrays and the rest strings |
| `Gateway.RecipeRequest` | geminiService.ts:17-40 | the request carries the recipe prompt, the JSON MIME type and the recipe schema |
| `Gateway.Fallback` | geminiService.ts:50-60 | the fallback has the fixed name, the three fixed instructions, "15 mins" and the fixed tips; its ingredients are the cart's product names in order, one per line |
| `Gateway.FallbackIgnoresQuantities` | geminiService.ts:52 | two carts with the same names in the same order get the same fallback |
| `Gateway.GetRecipeSuggestions` | geminiService.ts:8-61 | resolves iff the client was built; a failed call, or an undefined or empty text, gives the fallback; otherwise a text `JSON.parse` rejects gives the fallback, a falsy parsed value gives no recipe, and a parsed recipe is returned unchanged |
| `Gateway.HasText` | geminiService.ts:42-45 | text passes `if (!text)` exactly when the call resolved with a defined, non-empty text: a failed call, undefined text or "" never does, and every other resolved text does |
| `Gateway.WhitespaceTextFallsBack` | geminiService.ts:42-46 | an all-white-space text passes the empty check but trims to ""; it falls back, given that `JSON.parse("")` throws |
| `Gateway.RecipeAlwaysResolves` | geminiService.ts:16-61 | with a built client every service behaviour resolves, to the fallback, to no recipe, or to a recipe `JSON.parse` produced |
| `Gateway.NoRecipeOnlyWhenFalsy` | geminiService.ts:42-47 | a built client resolves to no recipe exactly when the text passes the empty check and `JSON.parse` turns its trim into a falsy value |
| `Gateway.InsightRequest` | geminiService.ts:66-72 | the nutrition request carries the one-line prompt naming the product, and no schema |
| `Gateway.GetNutritionInsight` | geminiService.ts:64-78 | resolves iff the client was built, always to a non-empty string: the text when there is one, "No insights found for this product." for an empty or undefined text, "Nutritional facts are currently unavailable." for a failed call |
| `Storefront.App.constructor` | App.tsx:145-150 | the page starts on the "all" tab, with an empty well-formed cart, closed modal, no recipe and not busy |
| `Storefront.App.AddToCart` | App.tsx:163-171 | the cart cell becomes `addToCart` of the old cart; the invariant holds and the count rises by one |
| `Storefront.App.UpdateQuantity` | App.tsx:173-181 | the cart cell becomes `updateQuantity` of the old cart; the invariant holds; an absent id changes nothing |
| `Storefront.App.CartCount` | App.tsx:183 | `cartCount` is the sum of the quantities in the cart cell, at least the number of lines while the invariant holds |
| `Storefront.App.CartTotal` | App.tsx:184 | `cartTotal` is the sum of price times quantity over the cart cell |
| `Storefront.App.FilteredProducts` | App.tsx:158-161 | the "all" tab shows the catalog unchanged; any other selected tab shows exactly the catalog's products of that category |
| `Storefront.App.SelectCategory` | App.tsx:313 | a category tab sets the selected category |
| `Storefront.App.CloseAIModal` | App.tsx:576 | dismissing the recipe view clears the modal flag only |
| `Storefront.App.BeginRecipe` | App.tsx:186-189 | an empty cart changes nothing and sends nothing; otherwise the busy and modal flags are set and the current cart is sent |
| `Storefront.App.FinishRecipe` | App.tsx:190-197 | a resolved value is stored, a falsy one as no recipe; a rejection leaves the old one; the busy flag is cleared either way |
| `Storefront.App.HandleGenerateRecipe` | App.tsx:186-198 | an empty cart changes nothing; otherwise the modal is open, the page is not busy, and the recipe is the gateway's result, or the old recipe on rejection; with a built client the page is left without a recipe exactly when the service text parses to a falsy JSON value such as `null` |

## Left out

- Rendering, layout, footer, newsletter and modal markup (App.tsx:200-619): presentation only.
- The `useOnScreen` IntersectionObserver hook (App.tsx:17-31): a browser API.
- The `setInterval` scheduling of the countdown (App.tsx:38-48): a timer. Only the tick function is modelled.
- The SDK client, `process.env.API_KEY` and `console.error`: foreign calls and logging. The outcome of each is a parameter (`clientBuilt`, `generate`).
- `JSON.parse` (geminiService.ts:46): a parameter (`parse`). In `Gateway.WhitespaceTextFallsBack` it is also assumed to reject "".
- `Gateway.GetRecipeSuggestions`: the model covers thrown parses, falsy JSON values and complete `AIResponse` objects. The code returns whatever `JSON.parse` yields, unchecked: an object missing fields (`{"recipeName":"x"}`), a truthy number (`42`) or any other truthy JSON value. The model has no such value; it can map such a text only to `Throws`, `Falsy` or `Recipe`, each of which the code does not return for it. The falsy values are all modelled as one, since the page treats them all as no recipe (App.tsx:591).
- Floating-point prices and `toFixed(2)` (App.tsx:129, 184, 562): prices are exact integer cents.
- Async overlap of several recipe requests: the code has no guard. `BeginRecipe` and `FinishRecipe` model the two halves around the `await`, and `HandleGenerateRecipe` assumes no other event comes between them.
- The state cells `isCartOpen` and `selectedProductDetail`, and the product-detail overlay: UI-only toggles. The overlay's add button calls the same `addToCart` (App.tsx:515).
- The types `ShippingInfo`, `PaymentInfo` and `CheckoutStep` (types.ts:32-46): unused by the core. The `constants` module holding the catalog is not part of this model; the catalog is a parameter.
- `Text.IntToString`: renders integers only. JavaScript's rendering of non-integer numbers does not arise, because quantities only change by whole deltas.
- Number width: in the code, quantities, counts and totals are IEEE doubles. They are exact only up to 2^53: past that, `item.quantity + 1` stops growing. From 10^21 up, JavaScript prints them in exponent form ("1e+21"). The model uses unbounded integers and always prints plain decimal digits, so it agrees with the code only below those bounds.
