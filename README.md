# Laptop shop storefront: cart and navigation state

This project models the state logic of the root component of the laptop
shop's storefront (`frontend/App.tsx`). That logic has two parts.

- **The shopping cart.** The cart is a list of lines. Each line holds a laptop (id, model, price) and a quantity. The component changes the cart with three updaters: add to cart, change quantity and remove. It derives two sums from it: the checkout total and the badge count in the navigation bar.
- **Navigation.** The component keeps a current page and a current user. A guard sends signed-out visitors who ask for a protected page (`admin`, `profile`, `logout`) to `login`. The start page depends on the user's role. The admin dashboard is shown only to `ADMIN` users. Logging out clears the user, and placing an order empties the cart.

Files:

- `types.dfy` (module `Types`) holds the records: `Laptop`, `CartItem`, `User` and `Option`.
- `cart.dfy` (module `Cart`) holds the cart updaters and sums as pure functions over sequences. It also holds the lemmas about them: ids stay unique, quantities stay at least 1, exactly the addressed line changes, order is kept, and the sums move by the right amount.
- `navigation.dfy` (modules `Navigation` and `Theme`) holds the page guard, the start page, the page after login and logout, the view each page renders, and the theme toggle.
- `app.dfy` (module `App`) holds the component itself as the class `Storefront`. Its fields are the component's state, and its methods are the event handlers. Each method is specified by the pure functions above and keeps the invariant `Valid()`: cart ids are unique, quantities are at least 1, and no protected page is current while nobody is signed in.

Prices and quantities are unbounded integers. The admin form parses prices with `parseInt` (`frontend/pages/AdminDashboard.tsx:331`).

The store module behind the component (sign-in, registration, profile update, order creation, product lookup) is not part of this model. Wherever a handler uses the store's answer, that answer is a parameter of the method. Examples are the user `Login` receives, the user `UpdateUser` receives, and `productFound` for the details page.

## Model

| member | source | states |
|---|---|---|
| `Cart.Find` | frontend/App.tsx:94 | The result is present exactly when some line carries the id, and it is then the first such line. |
| `Cart.AddToCart` | frontend/App.tsx:92-99 | Adding keeps every existing line's product in place, adds at most one line, and always leaves a line with the laptop's id. |
| `Cart.AddExisting` | frontend/App.tsx:94-96 | For a laptop already in a cart with unique ids, the length is unchanged, that line's quantity rises by exactly 1, and every other line is unchanged. |
| `Cart.AddAbsent` | frontend/App.tsx:98 | For a laptop not in the cart, the result is the old cart followed by one new line with quantity 1. |
| `Cart.AddKeepsValid` | frontend/App.tsx:94-98 | If the ids are unique and the quantities at least 1 before adding, both still hold after. |
| `Cart.AddSums` | frontend/App.tsx:92-103 | In a cart with unique ids, adding raises the badge count by 1. It raises the total by the unit price of the line that grows: the stored line's price if the laptop is already there, otherwise the laptop's price. |
| `Cart.AddSumsExisting` | frontend/App.tsx:96 | Raising an existing line (unique ids) adds 1 to the count and that line's price to the total. |
| `Cart.AtLeastOne` | frontend/App.tsx:113 | `Math.max(1, q)`: the result is at least 1 and at least q, it is 1 or q, and it is q whenever q is already at least 1. |
| `Cart.UpdateQuantity` | frontend/App.tsx:113 | Length, products and order are kept, and lines with other ids are untouched. An addressed line's new quantity is the least number that is at least 1 and at least the old quantity plus delta, i.e. `max(1, q + d)`. |
| `Cart.UpdateKeepsValid` | frontend/App.tsx:113 | Changing a quantity keeps ids unique and quantities at least 1. |
| `Cart.UpdateAbsent` | frontend/App.tsx:113 | Changing the quantity of an id that is not in the cart leaves the cart unchanged. |
| `Cart.UpdateRoundTrip` | frontend/App.tsx:113 | With positive quantities, the plus button followed by the minus button (deltas 1 and -1, as the cart page sends them) restores the cart. |
| `Cart.UpdateCompose` | frontend/App.tsx:113 | With positive quantities, two changes in the same direction equal one change by their sum. |
| `Cart.AddIsIncrement` | frontend/App.tsx:113 | For an id already in a cart with positive quantities, adding the laptop (line 96) equals changing its quantity by +1. |
| `Cart.UpdateSums` | frontend/App.tsx:113 | In a cart with unique ids, the count and the total change only by the addressed line's old and new quantity. |
| `Cart.Keep` | frontend/App.tsx:113 | The filter's test on one line: the line is kept, alone, exactly when its id differs from the removed id. |
| `Cart.Remove` | frontend/App.tsx:113 | After removing, the id no longer occurs and the cart never grows. Removing an absent id changes nothing. |
| `Cart.RemoveMembers` | frontend/App.tsx:113 | The kept lines are exactly the cart's lines that do not carry the id. |
| `Cart.RemoveAppend` | frontend/App.tsx:113 | Removing from a concatenation concatenates the removals, so the kept lines stay in their relative order. |
| `Cart.RemoveExisting` | frontend/App.tsx:113 | In a cart with unique ids, removing line k's id gives exactly the cart without line k. |
| `Cart.RemoveKeepsValid` | frontend/App.tsx:113 | Removing keeps ids unique and quantities at least 1. |
| `Cart.RemoveSums` | frontend/App.tsx:113 | In a cart with unique ids, removing a line takes its quantity off the count and its price times quantity off the total. |
| `Cart.RemoveUndoesAdd` | frontend/App.tsx:113 | Removing a laptop that was just added to a cart without it gives back the original cart. |
| `Cart.Count` | frontend/App.tsx:129 | The badge count is the left fold of the quantities. With positive quantities it is at least the number of lines, and it is 0 exactly for the empty cart. |
| `Cart.Total` | frontend/App.tsx:103 | The total is the left fold of price times quantity, and it is 0 for the empty cart. |
| `Cart.CountAppend` | frontend/App.tsx:129 | The count of a concatenation is the sum of the counts. |
| `Cart.TotalAppend` | frontend/App.tsx:103 | The total of a concatenation is the sum of the totals. |
| `Cart.SumsAfterReplace` | frontend/App.tsx:103 | Replacing one line changes the count and the total by exactly that line's difference. |
| `Navigation.IsProtected` | frontend/App.tsx:62 | The guard's protected pages exclude the page it redirects to (`login`) and the pages a visitor starts on (`landing`, `home`). |
| `Navigation.PageChange` | frontend/App.tsx:61-68 | The result is the requested page or `login`. It is the requested page whenever someone is signed in or the page is not protected. It is never a protected page while nobody is signed in. |
| `Navigation.PageChangeIdempotent` | frontend/App.tsx:61-68 | Applying the guard to its own result changes nothing. |
| `Navigation.StartPage` | frontend/App.tsx:27 | The start page is `landing` exactly without a user, `admin` exactly for an `ADMIN` user, and `home` exactly for any other user. |
| `Navigation.StartPageIsAllowed` | frontend/App.tsx:27 | The guard never redirects the start page. |
| `Navigation.LoginTarget` | frontend/App.tsx:75-79 | The page requested after a successful login is the user's start page, and it is protected exactly for an `ADMIN` user. |
| `Navigation.PageAfterLoginAsWritten` | frontend/App.tsx:70-79 | As written, the guard sees the user from before the sign-in. From a signed-out state, a successful login ends on `login` exactly when the user is an administrator, and on `home` for any other user. From a signed-in state it ends on the user's start page, and a rejected login leaves the page unchanged. |
| `Navigation.AdminLoginStrandedAsWritten` | frontend/App.tsx:70-79 | An `ADMIN` user signing in from the signed-out login page ends on `login`, while that user's start page is `admin`. |
| `Navigation.PageAfterLogin` | frontend/App.tsx:70-83 | Corrected login: success lands on the signed-in user's start page, and a failed login leaves the page unchanged. |
| `Navigation.PageAfterLogout` | frontend/App.tsx:85-90 | Logout always ends on `landing`, which is not protected. |
| `Navigation.CancelLogoutTarget` | frontend/App.tsx:115 | Cancelling logout returns a signed-in user to their start page, and a visitor to `home`. |
| `Navigation.RenderContent` | frontend/App.tsx:105-122 | The admin dashboard is rendered only on the `admin` page, and that page renders either the dashboard or the landing view. |
| `Navigation.AdminViewOnlyForAdmin` | frontend/App.tsx:111 | The admin dashboard is rendered if and only if the page is `admin` and the user's role is `ADMIN`. |
| `Navigation.SignedOutViews` | frontend/App.tsx:105-122 | While signed out on a page the guard allows, the dashboard, profile and logout views are never rendered. |
| `Theme.Initial` | frontend/App.tsx:31 | The initial theme is the stored string when one is present and non-empty, otherwise `dark`. It is never empty. |
| `Theme.Toggle` | frontend/App.tsx:55 | The toggle always yields `dark` or `light`, and yields `light` exactly when the theme was `dark`. |
| `Theme.ToggleTwice` | frontend/App.tsx:55 | Toggling twice restores a `dark` or `light` theme. |
| `Theme.ToggleTwiceAfterFirst` | frontend/App.tsx:31-55 | Whatever the initial theme, from the first toggle on every two toggles restore the theme. |
| `Theme.StoredUnknownThemeNotRestored` | frontend/App.tsx:31-55 | A stored theme such as `blue` is taken as it is; toggling gives `dark`, and toggling again gives `light`, not `blue`. |
| `App.OrderUserId` | frontend/App.tsx:120 | The order's user id is the signed-in user's id when it is non-empty, otherwise `guest`. It is never empty. |
| `App.Storefront.constructor` | frontend/App.tsx:26-31 | On mount the user is the one signed in, the page is the start page for that user, the cart is empty, nothing is selected, the theme is the initial theme, and the invariant holds. |
| `App.Storefront.CurrentView` | frontend/App.tsx:105-122 | In a valid state the dashboard is shown only to an administrator, and while signed out no dashboard, profile or logout view is shown. |
| `App.Storefront.ToggleTheme` | frontend/App.tsx:55 | The new theme is the toggle of the old one, and nothing else changes. |
| `App.Storefront.ChangePage` | frontend/App.tsx:61-68 | The new page is the guard's result for the current user, the invariant is kept, and only the page changes. |
| `App.Storefront.Login` | frontend/App.tsx:70-83 | A successful sign-in stores the user and lands on the corrected login page. A rejected one changes nothing. The invariant is kept. |
| `App.Storefront.Logout` | frontend/App.tsx:85-90 | The user is cleared and the page is `landing`. The invariant is kept. |
| `App.Storefront.CancelLogout` | frontend/App.tsx:115 | The page becomes the guarded start-page target, and nothing else changes. |
| `App.Storefront.UpdateUser` | frontend/App.tsx:112 | The current user becomes the store's updated user, and nothing else changes. |
| `App.Storefront.Registered` | frontend/App.tsx:116 | After registering, the page is `login`. |
| `App.Storefront.OpenProduct` | frontend/App.tsx:108-109 | The product is selected and the page is `details`, with no guard. |
| `App.Storefront.AddToCart` | frontend/App.tsx:92-101 | The cart becomes the add-to-cart of the old cart, and the invariant is kept. |
| `App.Storefront.UpdateQuantity` | frontend/App.tsx:113 | The cart becomes the quantity update of the old cart, and the invariant is kept. |
| `App.Storefront.RemoveItem` | frontend/App.tsx:113 | The cart becomes the old cart filtered by id, and the invariant is kept. |
| `App.Storefront.PlaceOrder` | frontend/App.tsx:120 | The order carries the whole old cart, its total, status `Pending`, the payment method and the address. The cart empties, so its count and total are 0. The page is the guarded `profile`. |

## Left out

- Rendering, styling and the page components (`LoginPage`, `RegisterPage`, `ProfilePage`, `CartPage`, `ProductDetailsPage`, toasts, chat widgets) are presentation only. The model keeps only what `renderContent` selects.
- Browser side effects are not modelled: writing the cart and theme to `localStorage`, the `dark`/`light` classes on the document root, and `window.scrollTo`. These are I/O.
- Restoring the cart from `localStorage` with `JSON.parse` (frontend/App.tsx:34-37) is not modelled. A stored cart is not checked, so it could break uniqueness or positive quantities. The constructor therefore starts with the empty cart the component declares.
- The store module (`login`, `logout`, `register`, `updateUser`, `createOrder`, `getLaptopById`, `getCurrentUser`) is not part of this model. Its answers are method parameters, and `PlaceOrder` returns the order instead of sending it.
- `App.Storefront.UpdateUser`: takes a user, not an optional one, so it assumes the store's update returns a user. If the store returned nothing while the profile page is current, the signed-out guard invariant would no longer hold.
- React's batching of state updates is not modelled. Each setter takes effect at once, except in `handleLogin` and `handleLogout`, where the guard reads the user captured when the handler was created. For logout this is modelled explicitly: `App.Storefront.Logout` passes the stale user to the guard. For login, `App.Storefront.Login` deliberately uses the corrected page (see "## Findings"), and the stale read exists only in `Navigation.PageAfterLoginAsWritten`.
- The admin dashboard (`frontend/pages/AdminDashboard.tsx`), the older prototype's pages (`Frontend/src`) and the authentication server (`Backend/server.js`) are not part of this model. They consist of store calls, HTTP clients, polling and visuals. The authentication routes the server mounts (`./routes/auth`, Backend/server.js:13) are outside this model.
- `Theme.ToggleTwice`: the round trip is promised only for `dark` and `light`. `Theme.Initial` accepts any non-empty stored string, and the component stores back whatever its theme is (line 52), so a value other than the two can come only from outside the component and then persists until the first toggle. `Theme.StoredUnknownThemeNotRestored` shows such a value is not restored, and `Theme.ToggleTwiceAfterFirst` shows the round trip holds from the first toggle on.
- `parseInt` can yield `NaN`, and JavaScript numbers are floating point. Prices, quantities and sums are modelled as unbounded integers.

## Findings

| source | as written | input that shows it | evidently intended | confidence | as-written member | corrected member |
|---|---|---|---|---|---|---|
| frontend/App.tsx:70-79 | `handleLogin` stores the user with `setCurrentUser(u)` and then calls `handlePageChange('admin')`. That guard reads `currentUser` from the render the handler was created in, which is still `null` when signing in, so the request for `admin` is redirected to `login`. | Signed out on the login page, the store returns a user with role `ADMIN`: the page stays `login` instead of `admin`. | A successful login lands on the user's start page: `admin` for administrators, `home` otherwise, the same choice as on mount (line 27). | medium (not executed) | `Navigation.PageAfterLoginAsWritten`, `Navigation.AdminLoginStrandedAsWritten` | `Navigation.PageAfterLogin`, used by `App.Storefront.Login` |
