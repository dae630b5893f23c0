/** The route tree of the application (`src/App.tsx`) and its guard
    `ProtectedRoute`: which page a path shows, and whether the signed-in
    user may see it or is sent elsewhere. A path is the list of its
    segments, `/retailer/crop/7` being `["retailer", "crop", "7"]`. Empty
    segments are dropped, so a trailing slash adds none: `/farmer/dashboard/`
    is `["farmer", "dashboard"]` and shows the same page. */
module Routes {
  import opened Basics
  import opened Store

  datatype Page =
    | HomePage | LoginPage | RegisterPage | ForgotPasswordPage
    | AreaIndex(area: Role)            // `/farmer` or `/retailer` with no child: an empty outlet
    | FarmerDashboardPage | AddCropPage | ManageOffersPage | FarmerChatsPage
    | RetailerDashboardPage | CropDetailsPage(cropId: string) | MyOffersPage
    | CheckoutPage(offerId: string) | RetailerChatsPage | TransactionDetailsPage(txId: string)
    | ProfilePage
    | NotFoundPage

  /** The path with each segment in lower case. No route sets
      `caseSensitive`, so a route's literal segments match a segment that
      equals them up to the case of ASCII letters (a JavaScript pattern
      with the `i` flag and no `u` flag folds no other character onto an
      ASCII letter). */
  function Folded(path: seq<string>): (q: seq<string>)
    ensures |q| == |path|
    ensures forall i :: 0 <= i < |path| ==> q[i] == Lower(path[i])
  {
    seq(|path|, i requires 0 <= i < |path| => Lower(path[i]))
  }

  /** The page a path matches; anything else falls to the catch-all. The
      literal segments are compared without regard to case, while the
      parameters (`:cropId`, `:offerId`, `:id`) keep the segment as it was
      written. */
  function Resolve(path: seq<string>): (p: Page)
    ensures p == HomePage <==> path == []
    ensures p == ProfilePage <==> Folded(path) == ["profile"]
    ensures p.CropDetailsPage? ==> |path| == 3 && p.cropId == path[2]
  {
    var q := Folded(path);
    if path == [] then HomePage
    else if q == ["login"] then LoginPage
    else if q == ["register"] then RegisterPage
    else if q == ["forgot-password"] then ForgotPasswordPage
    else if q == ["profile"] then ProfilePage
    else if q[0] == "farmer" then
      if |path| == 1 then AreaIndex(Farmer)
      else if |path| > 2 then NotFoundPage
      else if q[1] == "dashboard" then FarmerDashboardPage
      else if q[1] == "add-crop" then AddCropPage
      else if q[1] == "offers" then ManageOffersPage
      else if q[1] == "chats" then FarmerChatsPage
      else NotFoundPage
    else if q[0] == "retailer" then
      if |path| == 1 then AreaIndex(Retailer)
      else if |path| == 2 then
        if q[1] == "dashboard" then RetailerDashboardPage
        else if q[1] == "offers" then MyOffersPage
        else if q[1] == "chats" then RetailerChatsPage
        else NotFoundPage
      else if |path| == 3 then
        if q[1] == "crop" then CropDetailsPage(path[2])
        else if q[1] == "checkout" then CheckoutPage(path[2])
        else if q[1] == "transaction" then TransactionDetailsPage(path[2])
        else NotFoundPage
      else NotFoundPage
    else NotFoundPage
  }

  /** Who may see a page: anyone (`None`), any signed-in user
      (`Some(None)`), or only a user of one role. */
  function Guard(p: Page): Option<Option<Role>> {
    match p
    case AreaIndex(r) => Some(Some(r))
    case FarmerDashboardPage | AddCropPage | ManageOffersPage | FarmerChatsPage => Some(Some(Farmer))
    case RetailerDashboardPage | CropDetailsPage(_) | MyOffersPage | CheckoutPage(_)
       | RetailerChatsPage | TransactionDetailsPage(_) => Some(Some(Retailer))
    case ProfilePage => Some(None)
    case _ => None
  }

  datatype Decision = Render | Redirect(target: string)

  const LoginPath := "/login"

  /** The redirect for a user of the wrong role, as written: the attribute
      `"/\"` is not an escape in JSX, so the target is a slash followed by a
      backslash. */
  const WrongRoleTarget := "/\\"

  /** `ProtectedRoute`: to the login page without a user, away for a user of
      another role than the one required, otherwise the page itself. */
  function ProtectedRoute(user: Option<User>, requiredRole: Option<Role>): (d: Decision)
    ensures d == Redirect(LoginPath) <==> user.None?
    ensures d == Redirect(WrongRoleTarget) <==> user.Some? && requiredRole.Some? && user.value.role != requiredRole.value
    ensures d == Render <==> user.Some? && (requiredRole.None? || user.value.role == requiredRole.value)
  {
    if user.None? then Redirect(LoginPath)
    else if requiredRole.Some? && user.value.role != requiredRole.value then Redirect(WrongRoleTarget)
    else Render
  }

  /** What the application does on a path. */
  datatype View = Show(page: Page) | GoTo(target: string)

  function Navigate(path: seq<string>, user: Option<User>): (v: View)
    ensures v.Show? ==> v.page == Resolve(path)
  {
    var page := Resolve(path);
    match Guard(page)
    case None => Show(page)
    case Some(role) =>
      match ProtectedRoute(user, role)
      case Render => Show(page)
      case Redirect(t) => GoTo(t)
  }

  /** Two paths that differ only in the case of letters are guarded alike:
      `/Farmer/Dashboard` is the farmer's dashboard as much as
      `/farmer/dashboard` is. */
  lemma {:induction false} GuardIgnoresCase(path: seq<string>, other: seq<string>)
    requires Folded(path) == Folded(other)
    ensures Guard(Resolve(path)) == Guard(Resolve(other))
    ensures Resolve(path).NotFoundPage? <==> Resolve(other).NotFoundPage?
  {
    assert |path| == |other|;
    if |path| == 3 {
      assert |path[2]| == |Lower(path[2])| == |Lower(other[2])| == |other[2]|;
    }
  }

  /** A page under `/farmer` shows only for a farmer, a page under
      `/retailer` only for a retailer, and every such page does show for a
      user of its role; unknown paths there fall to the catch-all, which
      shows for anyone. */
  lemma {:induction false} AreasNeedTheirRole(path: seq<string>, user: Option<User>, area: Role)
    requires path != [] && Lower(path[0]) == (if area == Farmer then "farmer" else "retailer")
    requires Resolve(path) != NotFoundPage
    ensures Navigate(path, user).Show? <==> user.Some? && user.value.role == area
    ensures user.None? ==> Navigate(path, user) == GoTo(LoginPath)
  {
    var q := Folded(path);
    assert q[0] == Lower(path[0]);
    assert q != ["profile"] && q != ["login"] && q != ["register"] && q != ["forgot-password"];
  }

  /** The profile page, under any spelling of `/profile`, shows for any
      signed-in user, and sends everyone else to the login page. */
  lemma {:induction false} ProfileNeedsLogin(path: seq<string>, user: Option<User>)
    requires Folded(path) == ["profile"]
    ensures Navigate(path, user) == if user.Some? then Show(ProfilePage) else GoTo(LoginPath)
  {
  }

  /** The home, login, registration and password-reset pages show for
      anyone. */
  lemma {:induction false} PublicPages(path: seq<string>, user: Option<User>)
    requires path == [] || Folded(path) in {["login"], ["register"], ["forgot-password"]}
    ensures Navigate(path, user).Show?
  {
    if path != [] {
      assert Folded(path)[0] != "profile";
    }
  }

  /** The redirect target as written is not the home path "/" that the
      catch-all and the home route use: a retailer opening the farmer's
      dashboard is sent to `/\`. */
  lemma {:induction false} WrongRoleTargetIsNotHome(path: seq<string>, u: User)
    requires u.role == Retailer && Folded(path) == ["farmer", "dashboard"]
    ensures Navigate(path, Some(u)) == GoTo(WrongRoleTarget)
    ensures WrongRoleTarget != HomePath
  {
    assert Folded(path)[0] == "farmer";
    assert WrongRoleTarget[1] == '\\';
  }

  const HomePath := "/"

  /** The guard with the redirect evidently intended: the home page. */
  function IntendedProtectedRoute(user: Option<User>, requiredRole: Option<Role>): (d: Decision)
    ensures d == Redirect(LoginPath) <==> user.None?
    ensures d == Redirect(HomePath) <==> user.Some? && requiredRole.Some? && user.value.role != requiredRole.value
    ensures d == Render <==> user.Some? && (requiredRole.None? || user.value.role == requiredRole.value)
  {
    if user.None? then Redirect(LoginPath)
    else if requiredRole.Some? && user.value.role != requiredRole.value then Redirect(HomePath)
    else Render
  }

  /** With the intended target, a user of the wrong role lands on a page
      that shows for everyone. */
  lemma {:induction false} IntendedRedirectShows(path: seq<string>, u: User)
    requires Guard(Resolve(path)) == Some(Some(if u.role == Farmer then Retailer else Farmer))
    ensures IntendedProtectedRoute(Some(u), Guard(Resolve(path)).value) == Redirect(HomePath)
    ensures Navigate([], Some(u)) == Show(HomePage)
  {
  }
}
