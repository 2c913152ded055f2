/** The results of the other three generation flows, as the application
    uses them. */
module FlowShapes {
  import opened Wrappers

  /** One item to buy, with an optional quantity such as "2 lbs". */
  datatype ShoppingListItem = ShoppingListItem(item: string, quantity: Option<string>)

  /** A named group of items, such as "Produce". */
  datatype ShoppingListCategory = ShoppingListCategory(category: string, items: seq<ShoppingListItem>)

  datatype GenerateShoppingListOutput = GenerateShoppingListOutput(shoppingList: seq<ShoppingListCategory>)

  /** The recipe names suggested for a plan. */
  datatype SuggestRecipesOutput = SuggestRecipesOutput(recipes: seq<string>)

  datatype ChatbotOutput = ChatbotOutput(answer: string)
}
