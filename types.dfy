/**
 * The records the storefront's root component works with: the products
 * offered in the shop, the lines of the shopping cart and the signed-in user.
 */
module Types {

  /** A value that may be absent (`null` in `App.tsx`). */
  datatype Option<+T> = None | Some(value: T)

  /**
   * A product of the catalogue, reduced to the fields the cart logic reads.
   * Prices are whole numbers: the admin form parses them with `parseInt`.
   */
  datatype Laptop = Laptop(id: string, model: string, price: int)

  /**
   * One line of the cart: the product spread into the item, plus a quantity.
   * The quantity is an unbounded integer; the cart operations keep it at
   * least 1, which the lemmas of module Cart prove.
   */
  datatype CartItem = CartItem(product: Laptop, quantity: int)
  {
    /** The laptop id the cart operations compare against. */
    function Id(): string { product.id }

    /** What this line contributes to the cart total. */
    function LineTotal(): int { product.price * quantity }
  }

  /** A signed-in account; `role` is compared against the string "ADMIN". */
  datatype User = User(id: string, name: string, email: string, role: string)

  const AdminRole: string := "ADMIN"

  predicate IsAdmin(user: Option<User>)
  {
    user.Some? && user.value.role == AdminRole
  }
}
