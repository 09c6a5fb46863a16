/** The product and user objects as the browser holds them: parsed JSON in
    which any field may be missing. */
module Listings {
  import opened Wrappers

  /** A product in the browser's list. `price` is the price as the edit form
      shows it, `None` when JavaScript finds it falsy; `legacySellerId` is
      the `seller_id` key, which the product routes never send. */
  datatype Listing = Listing(
    id: nat,
    name: Option<string>,
    description: Option<string>,
    category: Option<string>,
    price: Option<string>,
    sellerName: Option<string>,
    sellerId: Option<string>,
    legacySellerId: Option<string>)

  /** The user object of a signup or login reply, kept as the session. */
  datatype ClientUser = ClientUser(id: string, email: string, name: string, phone: string, role: string)
}
