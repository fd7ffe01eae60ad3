/** The request body of add_item and update_item, after validation. */
module Models {
  import opened Wrappers

  /** `GroceryItem`: a name, a quantity and an optional client-sent date.
      The quantity is optional here so that update_item's `is not None`
      test has both outcomes. */
  datatype GroceryItem = GroceryItem(itemName: string, quantity: Option<int>, date: Option<string>)
}
