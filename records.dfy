/** The records kept in the four JSON collections (users, sessions,
    products, orders) and the user view the server hands to browsers.
    A field that JavaScript may leave out is the empty string "" when it is
    text and 0 when it is a number; both are falsy there as here. */
module Records {
  import opened Common

  /** A stored user. `role` is "" for users created by registration or
      federated login, which never write a role. */
  datatype User = User(
    id: string, name: string, email: string, phone: string, password: string,
    role: string, createdAt: Option<int>)

  datatype Session = Session(token: string, userId: string, createdAt: int)

  datatype Product = Product(
    id: string, name: string, category: string, price: int, status: string,
    description: string, image: string, createdAt: int, updatedAt: Option<int>)

  /** A line of an order or of the cart: `{productId, quantity}`. */
  datatype LineItem = LineItem(productId: string, quantity: int)

  datatype Order = Order(
    id: string, items: seq<LineItem>, total: int, customerName: string,
    note: string, address: string, status: string, createdAt: int,
    updatedAt: Option<int>)

  /** A user as `/api/me` and `/api/users` return it: no password, and a
      role that is never empty. */
  datatype UserView = UserView(
    id: string, name: string, email: string, phone: string, role: string,
    createdAt: Option<int>)

  /** The part of a user that `/api/login` and the federated logins return. */
  datatype UserSummary = UserSummary(id: string, name: string, email: string)

  const Pending := "pending"
  const Processing := "processing"
  const Completed := "completed"
  const Cancelled := "cancelled"
}
