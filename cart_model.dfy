/** The cart document: a user's lines (product reference and quantity) and
    the cached total, with the constraints the schema enforces on save. */
module CartModel {
  import opened Http

  type UserId = string
  type ProductId = string
  /** Stands in for the `_id` the database gives each line. */
  type LineId = nat

  datatype CartItem = CartItem(id: LineId, product: ProductId, quantity: int)

  datatype Cart = Cart(user: UserId, items: seq<CartItem>, totalAmount: int)

  /** The schema's `min` for a line's quantity. */
  const MinQuantity: int := 1

  const MsgCartValidation: string := "Cart validation failed"

  /** Every line has its required product reference and a quantity of at
      least MinQuantity. */
  predicate ItemsValid(items: seq<CartItem>) {
    forall i :: 0 <= i < |items| ==> items[i].product != "" && items[i].quantity >= MinQuantity
  }

  /** A cart as first created: no lines and `totalAmount` at its default. */
  function EmptyCart(user: UserId): (c: Cart)
    ensures c.user == user && c.items == [] && c.totalAmount == 0
    ensures ItemsValid(c.items)
  {
    Cart(user, [], 0)
  }

  /** What saving a cart does: it is stored when every line meets the
      schema and rejected with a validation error otherwise. */
  function Validate(cart: Cart): (r: Result<Cart>)
    ensures r.Ok? ==> r.value == cart
    ensures r.Ok? ==> forall i :: 0 <= i < |cart.items| ==> cart.items[i].quantity >= 1
    ensures r.Err? <==> exists i :: 0 <= i < |cart.items| &&
                          (cart.items[i].product == "" || cart.items[i].quantity < 1)
    ensures r.Err? ==> r.error.status == ServerError
  {
    if ItemsValid(cart.items) then Ok(cart) else Err(Error(ServerError, MsgCartValidation))
  }
}
