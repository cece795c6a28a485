/**
 * The storefront's root component as an object: the state it keeps
 * (current user, current page, selected product, cart, theme) and the
 * handlers that change it. Each handler is specified by the pure functions
 * of modules Cart, Navigation and Theme, and keeps the invariant `Valid`:
 * the cart's ids are unique, its quantities are at least 1, and no
 * protected page is current while nobody is signed in.
 *
 * The store behind the component (sign-in, registration, profile updates,
 * orders, product lookup) is not part of this model; what it answers is a
 * parameter of the handler that asks.
 */
module App {
  import opened Types
  import Cart
  import Navigation
  import Theme

  /** The order handed to the store when the checkout page places it. */
  datatype Order = Order(
    userId: string,
    items: seq<CartItem>,
    total: int,
    status: string,
    paymentMethod: string,
    shippingAddress: string)

  /** `currentUser?.id || 'guest'`: a missing user or an empty id orders as "guest". */
  function OrderUserId(user: Option<User>): (id: string)
    ensures id != ""
    ensures user.Some? && user.value.id != "" ==> id == user.value.id
    ensures user.None? || user.value.id == "" ==> id == "guest"
  {
    if user.Some? && user.value.id != "" then user.value.id else "guest"
  }

  class Storefront {
    var currentUser: Option<User>
    var currentPage: string
    var selectedProductId: Option<string>
    var cart: seq<CartItem>
    var theme: string

    ghost predicate Valid()
      reads this
    {
      Cart.Valid(cart) &&
      (currentUser.None? ==> !Navigation.IsProtected(currentPage))
    }

    /**
     * Mounting the component: `signedIn` is the store's current user and
     * `savedTheme` what the browser's storage holds for the theme. The cart
     * starts empty and the page is chosen from the user's role.
     */
    constructor (signedIn: Option<User>, savedTheme: Option<string>)
      ensures Valid()
      ensures currentUser == signedIn
      ensures currentPage == Navigation.StartPage(signedIn)
      ensures selectedProductId == None
      ensures cart == []
      ensures theme == Theme.Initial(savedTheme)
    {
      currentUser := signedIn;
      currentPage := Navigation.StartPage(signedIn);
      selectedProductId := None;
      cart := [];
      theme := Theme.Initial(savedTheme);
    }

    /** What the main area shows now, given the store's answer for the selected product. */
    function CurrentView(productFound: bool): (v: Navigation.View)
      reads this
      requires Valid()
      ensures v == Navigation.AdminDashboardView ==> IsAdmin(currentUser)
      ensures currentUser.None? ==>
        v != Navigation.AdminDashboardView && v != Navigation.ProfileView && v != Navigation.LogoutView
    {
      Navigation.RenderContent(currentPage, currentUser, productFound)
    }

    method ToggleTheme()
      modifies this`theme
      ensures theme == Theme.Toggle(old(theme))
    {
      theme := Theme.Toggle(theme);
    }

    /** `handlePageChange`. */
    method ChangePage(page: string)
      requires Valid()
      modifies this`currentPage
      ensures Valid()
      ensures currentPage == Navigation.PageChange(page, currentUser)
    {
      if Navigation.IsProtected(page) && currentUser.None? {
        currentPage := Navigation.LoginPage;
        return;
      }
      currentPage := page;
    }

    /**
     * `handleLogin`, where `result` is the store's answer for the submitted
     * email. A successful sign-in stores the user and lands on the user's
     * start page; a rejected one changes nothing.
     */
    method Login(result: Option<User>)
      requires Valid()
      modifies this`currentUser, this`currentPage
      ensures Valid()
      ensures currentUser == if result.Some? then result else old(currentUser)
      ensures currentPage == Navigation.PageAfterLogin(old(currentPage), result)
    {
      if result.Some? {
        currentUser := result;
        ChangePage(Navigation.LoginTarget(result.value));
      }
    }

    /** `handleLogout`: nobody is signed in and the landing page is shown. */
    method Logout()
      requires Valid()
      modifies this`currentUser, this`currentPage
      ensures Valid()
      ensures currentUser == None
      ensures currentPage == Navigation.PageAfterLogout(old(currentUser))
    {
      var stale := currentUser;
      currentUser := None;
      currentPage := Navigation.PageAfterLogout(stale);
    }

    /** The logout page's cancel button. */
    method CancelLogout()
      requires Valid()
      modifies this`currentPage
      ensures Valid()
      ensures currentPage == Navigation.PageChange(Navigation.CancelLogoutTarget(currentUser), currentUser)
    {
      ChangePage(Navigation.CancelLogoutTarget(currentUser));
    }

    /** The profile page's save: `updated` is what the store returns for the edited user. */
    method UpdateUser(updated: User)
      requires Valid()
      modifies this`currentUser
      ensures Valid()
      ensures currentUser == Some(updated)
    {
      currentUser := Some(updated);
    }

    /** The register page's submit, after the store has recorded the account. */
    method Registered()
      requires Valid()
      modifies this`currentPage
      ensures Valid()
      ensures currentPage == Navigation.LoginPage
    {
      ChangePage(Navigation.LoginPage);
    }

    /** A product card's click: the product is selected and its details page shown, unguarded. */
    method OpenProduct(id: string)
      requires Valid()
      modifies this`selectedProductId, this`currentPage
      ensures Valid()
      ensures selectedProductId == Some(id)
      ensures currentPage == "details"
    {
      selectedProductId := Some(id);
      currentPage := "details";
    }

    /** `addToCart`. */
    method AddToCart(laptop: Laptop)
      requires Valid()
      modifies this`cart
      ensures Valid()
      ensures cart == Cart.AddToCart(old(cart), laptop)
    {
      Cart.AddKeepsValid(cart, laptop);
      cart := Cart.AddToCart(cart, laptop);
    }

    /** The cart page's plus and minus buttons. */
    method UpdateQuantity(id: string, delta: int)
      requires Valid()
      modifies this`cart
      ensures Valid()
      ensures cart == Cart.UpdateQuantity(old(cart), id, delta)
    {
      Cart.UpdateKeepsValid(cart, id, delta);
      cart := Cart.UpdateQuantity(cart, id, delta);
    }

    /** The cart page's remove button. */
    method RemoveItem(id: string)
      requires Valid()
      modifies this`cart
      ensures Valid()
      ensures cart == Cart.Remove(old(cart), id)
    {
      Cart.RemoveKeepsValid(cart, id);
      cart := Cart.Remove(cart, id);
    }

    /**
     * The checkout page's place-order button: the order handed to the store
     * carries the whole cart and its total, the cart is emptied, and the
     * profile page is requested.
     */
    method PlaceOrder(shippingAddress: string, paymentMethod: string) returns (order: Order)
      requires Valid()
      modifies this`cart, this`currentPage
      ensures Valid()
      ensures order == Order(OrderUserId(currentUser), old(cart), Cart.Total(old(cart)),
                             "Pending", paymentMethod, shippingAddress)
      ensures cart == []
      ensures Cart.Count(cart) == 0 && Cart.Total(cart) == 0
      ensures currentPage == Navigation.PageChange(Navigation.ProfilePage, currentUser)
    {
      order := Order(OrderUserId(currentUser), cart, Cart.Total(cart), "Pending", paymentMethod, shippingAddress);
      cart := [];
      ChangePage(Navigation.ProfilePage);
    }
  }
}
