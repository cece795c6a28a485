/**
 * Page navigation of the storefront's root component: the guard that sends
 * signed-out visitors to the login page, the page chosen at start-up and
 * after signing in, and the view each page renders, including the check
 * that shows the admin dashboard to administrators only.
 *
 * Pages are the plain strings `App.tsx` passes around; any string may be
 * requested, and unknown ones render the landing page.
 */
module Navigation {
  import opened Types

  const LandingPage: string := "landing"
  const HomePage: string := "home"
  const AdminPage: string := "admin"
  const ProfilePage: string := "profile"
  const LogoutPage: string := "logout"
  const LoginPage: string := "login"

  /**
   * The pages that need a signed-in user. The page the guard redirects to
   * and the pages a visitor starts on are not among them.
   */
  predicate IsProtected(page: string): (b: bool)
    ensures b ==> page != LoginPage && page != LandingPage && page != HomePage
  {
    page == AdminPage || page == ProfilePage || page == LogoutPage
  }

  /**
   * `handlePageChange`: the page shown after `page` is requested while
   * `user` is signed in. A signed-out request for a protected page lands on
   * the login page; every other request is honoured as it is.
   */
  function PageChange(page: string, user: Option<User>): (r: string)
    ensures r == page || r == LoginPage
    ensures user.Some? || !IsProtected(page) ==> r == page
    ensures user.None? ==> !IsProtected(r)
  {
    if IsProtected(page) && user.None? then LoginPage else page
  }

  /** A page the guard has let through is let through again. */
  lemma PageChangeIdempotent(page: string, user: Option<User>)
    ensures PageChange(PageChange(page, user), user) == PageChange(page, user)
  {
  }

  /**
   * The page chosen when the component mounts: the landing page for
   * visitors, the dashboard for administrators, the home page otherwise.
   */
  function StartPage(user: Option<User>): (r: string)
    ensures r == LandingPage <==> user.None?
    ensures r == AdminPage <==> IsAdmin(user)
    ensures r == HomePage <==> user.Some? && !IsAdmin(user)
  {
    if user.None? then LandingPage
    else if user.value.role == AdminRole then AdminPage
    else HomePage
  }

  /** The start page is never redirected by the guard. */
  lemma StartPageIsAllowed(user: Option<User>)
    ensures PageChange(StartPage(user), user) == StartPage(user)
  {
  }

  /**
   * The page `handleLogin` requests for a user the store accepted: the
   * dashboard for an administrator, the home page otherwise, which is the
   * same choice as the start page for that user.
   */
  function LoginTarget(user: User): (r: string)
    ensures r == StartPage(Some(user))
    ensures IsProtected(r) <==> user.role == AdminRole
  {
    if user.role == AdminRole then AdminPage else HomePage
  }

  /**
   * `handleLogin` as written: the store's answer `result` is stored as the
   * current user, but the guard then runs with `staleUser`, the value the
   * component had when the handler was created. A rejected login leaves the
   * page unchanged.
   */
  function PageAfterLoginAsWritten(page: string, staleUser: Option<User>, result: Option<User>): (r: string)
    ensures result.None? ==> r == page
    ensures result.Some? && staleUser.Some? ==> r == StartPage(result)
    ensures result.Some? && staleUser.None? ==> (r == LoginPage <==> IsAdmin(result))
    ensures result.Some? && staleUser.None? && !IsAdmin(result) ==> r == HomePage
  {
    match result
    case None => page
    case Some(user) => PageChange(LoginTarget(user), staleUser)
  }

  /**
   * An administrator signing in from the signed-out login page is sent back
   * to the login page rather than to the dashboard.
   */
  lemma AdminLoginStrandedAsWritten()
    ensures PageAfterLoginAsWritten(LoginPage, None, Some(User("1", "Admin", "admin@luxelaptops.com", AdminRole)))
      == LoginPage
    ensures StartPage(Some(User("1", "Admin", "admin@luxelaptops.com", AdminRole))) == AdminPage
  {
  }

  /**
   * `handleLogin` as intended: the guard sees the user who has just signed
   * in, so a successful login lands on that user's start page, and a
   * rejected one leaves the page as it was.
   */
  function PageAfterLogin(page: string, result: Option<User>): (r: string)
    ensures result.Some? ==> r == StartPage(result)
    ensures result.None? ==> r == page
  {
    match result
    case None => page
    case Some(user) => PageChange(LoginTarget(user), result)
  }

  /**
   * The page `handleLogout` ends on: `handlePageChange('landing')`, whose
   * guard lets the landing page through whoever the guard believes is
   * signed in.
   */
  function PageAfterLogout(staleUser: Option<User>): (r: string)
    ensures r == LandingPage
    ensures !IsProtected(r)
  {
    PageChange(LandingPage, staleUser)
  }

  /**
   * The page the logout page's cancel button requests: the dashboard for an
   * administrator, the home page for anyone else.
   */
  function CancelLogoutTarget(user: Option<User>): (r: string)
    ensures user.Some? ==> r == StartPage(user)
    ensures user.None? ==> r == HomePage
  {
    if IsAdmin(user) then AdminPage else HomePage
  }

  /** What `renderContent` puts in the main area of the page. */
  datatype View =
    | LandingView | HomeView | ShopView | AboutView | AdminDashboardView | ProfileView
    | CartView | LoginView | LogoutView | RegisterView | ProductDetailsView | CheckoutView

  /**
   * `renderContent`: the view for `page`. The admin page falls back to the
   * landing view unless the user is an administrator; the details page falls
   * back to the home view when the selected product is not in the store
   * (`productFound`, the answer of the store's lookup); unknown pages render
   * the landing view.
   */
  function RenderContent(page: string, user: Option<User>, productFound: bool): (v: View)
    ensures v == AdminDashboardView ==> page == AdminPage
    ensures page == AdminPage ==> v == AdminDashboardView || v == LandingView
  {
    match page
    case "landing" => LandingView
    case "home" => HomeView
    case "shop" => ShopView
    case "about" => AboutView
    case "admin" => if IsAdmin(user) then AdminDashboardView else LandingView
    case "profile" => ProfileView
    case "cart" => CartView
    case "login" => LoginView
    case "logout" => LogoutView
    case "register" => RegisterView
    case "details" => if productFound then ProductDetailsView else HomeView
    case "checkout" => CheckoutView
    case _ => LandingView
  }

  /** The admin dashboard is rendered exactly when an administrator is on the admin page. */
  lemma AdminViewOnlyForAdmin(page: string, user: Option<User>, productFound: bool)
    ensures RenderContent(page, user, productFound) == AdminDashboardView <==> page == AdminPage && IsAdmin(user)
  {
  }

  /**
   * While nobody is signed in and the guard's invariant holds, none of the
   * views that need a user (the dashboard, the profile, the logout page) is
   * rendered.
   */
  lemma SignedOutViews(page: string, productFound: bool)
    requires !IsProtected(page)
    ensures RenderContent(page, None, productFound) !in {AdminDashboardView, ProfileView, LogoutView}
  {
  }
}

/**
 * The colour theme: read once from the browser's storage and flipped by the
 * toggle in the navigation bar.
 */
module Theme {
  import opened Types

  const Dark: string := "dark"
  const Light: string := "light"

  /**
   * The initial theme, `localStorage.getItem('luxe_theme') || 'dark'`: the
   * stored string unless it is missing or empty. The stored string is not
   * checked to be one of the two themes.
   */
  function Initial(saved: Option<string>): (t: string)
    ensures t != ""
    ensures saved.Some? && saved.value != "" ==> t == saved.value
    ensures saved.None? || saved.value == "" ==> t == Dark
  {
    if saved.Some? && saved.value != "" then saved.value else Dark
  }

  /** `toggleTheme`: dark becomes light, anything else becomes dark. */
  function Toggle(t: string): (r: string)
    ensures r == Dark || r == Light
    ensures r == Light <==> t == Dark
  {
    if t == Dark then Light else Dark
  }

  /** Toggling twice restores a theme that is one of the two. */
  lemma ToggleTwice(t: string)
    requires t == Dark || t == Light
    ensures Toggle(Toggle(t)) == t
  {
  }

  /**
   * Whatever the initial theme, from the first toggle on every two toggles
   * restore the theme: the first toggle always yields one of the two.
   */
  lemma ToggleTwiceAfterFirst(t: string)
    ensures Toggle(Toggle(Toggle(t))) == Toggle(t)
  {
    ToggleTwice(Toggle(t));
  }

  /**
   * A stored theme other than the two is taken as it is, and two toggles
   * then end on `light` rather than on the stored value: the first toggle
   * gives `dark`, the second `light`.
   */
  lemma StoredUnknownThemeNotRestored()
    ensures Initial(Some("blue")) == "blue"
    ensures Toggle(Initial(Some("blue"))) == Dark
    ensures Toggle(Toggle(Initial(Some("blue")))) == Light
  {
    assert "blue"[0] != Dark[0];
  }
}
