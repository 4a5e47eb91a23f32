/** The storefront page's state: the cells the page component holds and the
    handlers that replace them. Each handler applies the pure rule of its
    module to the current value of a cell. */
module Storefront {
  import opened Types
  import Cart
  import Catalog
  import Gateway
  import Text

  class App {
    var selectedCategory: string
    var cart: seq<CartItem>
    var isAIModalOpen: bool
    var aiRecipe: Option<AIResponse>
    var isGeneratingRecipe: bool

    /** The cart invariant holds of the cart cell. */
    ghost predicate Valid()
      reads this
    {
      Cart.WellFormed(cart)
    }

    /** The initial state: the "all" tab, an empty cart, no recipe. */
    constructor ()
      ensures Valid()
      ensures selectedCategory == Catalog.AllCategories && cart == []
      ensures !isAIModalOpen && aiRecipe == None && !isGeneratingRecipe
    {
      selectedCategory := Catalog.AllCategories;
      cart := [];
      isAIModalOpen := false;
      aiRecipe := None;
      isGeneratingRecipe := false;
    }

    method AddToCart(product: Product)
      requires Valid()
      modifies this`cart
      ensures Valid()
      ensures cart == Cart.AddToCart(old(cart), product)
      ensures Cart.CartCount(cart) == Cart.CartCount(old(cart)) + 1
    {
      Cart.AddSums(cart, product);
      cart := Cart.AddToCart(cart, product);
    }

    method UpdateQuantity(id: string, delta: int)
      requires Valid()
      modifies this`cart
      ensures Valid()
      ensures cart == Cart.UpdateQuantity(old(cart), id, delta)
      ensures !Cart.HasId(old(cart), id) ==> cart == old(cart)
    {
      cart := Cart.UpdateQuantity(cart, id, delta);
    }

    /** `cartCount`, recomputed from the cart cell. */
    function CartCount(): (n: int)
      reads this
      ensures n == Cart.SumQuantities(cart)
      ensures Valid() ==> n >= |cart|
    {
      Cart.CartCount(cart)
    }

    /** `cartTotal`, recomputed from the cart cell. */
    function CartTotal(): (t: int)
      reads this
      ensures t == Cart.SumPrices(cart)
    {
      Cart.CartTotal(cart)
    }

    method SelectCategory(id: string)
      modifies this`selectedCategory
      ensures selectedCategory == id
    {
      selectedCategory := id;
    }

    /** `filteredProducts` for the selected tab. */
    function FilteredProducts(catalog: seq<Product>): (r: seq<Product>)
      reads this
      ensures selectedCategory == Catalog.AllCategories ==> r == catalog
      ensures selectedCategory != Catalog.AllCategories ==>
        forall p :: p in r <==> p in catalog && p.category == selectedCategory
    {
      Catalog.FilteredProducts(catalog, selectedCategory)
    }

    method CloseAIModal()
      modifies this`isAIModalOpen
      ensures !isAIModalOpen
    {
      isAIModalOpen := false;
    }

    /** The part of `handleGenerateRecipe` before the `await`: with an empty
        cart nothing happens; otherwise the busy flag and the modal are set
        and the cart is handed to the gateway. */
    method BeginRecipe() returns (request: Option<seq<CartItem>>)
      modifies this`isGeneratingRecipe, this`isAIModalOpen
      ensures old(cart) == [] ==> request == None && unchanged(this)
      ensures old(cart) != [] ==> request == Some(cart) && isGeneratingRecipe && isAIModalOpen
    {
      if cart == [] {
        return None;
      }
      isGeneratingRecipe := true;
      isAIModalOpen := true;
      request := Some(cart);
    }

    /** The part after the `await`: a resolved value is stored, a falsy one
        as no recipe; a rejection is caught and leaves the previous recipe;
        the busy flag is cleared either way. The modal flag is not
        consulted. */
    method FinishRecipe(outcome: Gateway.Settled<Option<AIResponse>>)
      modifies this`aiRecipe, this`isGeneratingRecipe
      ensures !isGeneratingRecipe
      ensures aiRecipe == if outcome.Resolved? then outcome.value else old(aiRecipe)
    {
      if outcome.Resolved? {
        aiRecipe := outcome.value;
      }
      isGeneratingRecipe := false;
    }

    /** `handleGenerateRecipe` when no other event comes between the two
        halves. */
    method HandleGenerateRecipe(
      clientBuilt: bool,
      generate: Gateway.Request -> Gateway.Reply,
      parse: string -> Gateway.Parsed)
      modifies this`isGeneratingRecipe, this`isAIModalOpen, this`aiRecipe
      ensures old(cart) == [] ==> unchanged(this)
      ensures old(cart) != [] ==> isAIModalOpen && !isGeneratingRecipe
      ensures old(cart) != [] ==>
        aiRecipe == match Gateway.GetRecipeSuggestions(old(cart), clientBuilt, generate, parse)
                    case Resolved(v) => v
                    case Rejected => old(aiRecipe)
      ensures old(cart) != [] && clientBuilt ==>
        var reply := generate(Gateway.RecipeRequest(old(cart)));
        (aiRecipe.None? <==> Gateway.HasText(reply) && parse(Text.Trim(reply.text.value)).Falsy?)
    {
      var request := BeginRecipe();
      if request.Some? {
        var outcome := Gateway.GetRecipeSuggestions(request.value, clientBuilt, generate, parse);
        FinishRecipe(outcome);
      }
    }
  }
}
