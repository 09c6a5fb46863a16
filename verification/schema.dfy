/** Identifiers and rows shared by the backend route modules. */
module Schema {

  /** The identity provider's user id; `users.id` and `products.seller_id` hold it. */
  type UserId = string

  /** The store-generated `products.id`. */
  type ProductId = nat

  /** A stored price: `parseFloat` applied to the submitted text. The model
      keeps the text and does not interpret it as a number. */
  datatype Price = ParseFloat(text: string)

  /** A row of the `users` table (the profile row written at signup). */
  datatype UserRow = UserRow(id: UserId, name: string, phone: string, email: string, role: string)
}
