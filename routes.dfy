/** The route table of the application shell: which page a path renders and where a
    path redirects, given the session token, and when the navigation bar shows. */
module Routes {
  import opened Js

  const LoginRoute := "/login"
  const RegisterRoute := "/register"
  const ForgotPasswordRoute := "/forgot-password"
  const ResetPasswordRoute := "/reset-password"
  const DashboardRoute := "/dashboard"
  const InvoicesRoute := "/invoices"

  datatype Page = LoginPage | RegisterPage | ForgotPasswordPage | ResetPasswordPage | DashboardPage | InvoicesPage

  /** What a route element yields: its nested page (`<Outlet />`) or a `<Navigate to=… />`. */
  datatype Guard = Outlet | Navigate(to: string)

  /** What the router shows for a path. */
  datatype Screen = Render(page: Page) | Redirect(to: string)

  /** The pages nested under the public guard. */
  function PublicPage(path: string): Option<Page> {
    if path == LoginRoute then Some(LoginPage)
    else if path == RegisterRoute then Some(RegisterPage)
    else if path == ForgotPasswordRoute then Some(ForgotPasswordPage)
    else if path == ResetPasswordRoute then Some(ResetPasswordPage)
    else None
  }

  /** The pages nested under the private guard. */
  function PrivatePage(path: string): Option<Page> {
    if path == DashboardRoute then Some(DashboardPage)
    else if path == InvoicesRoute then Some(InvoicesPage)
    else None
  }

  /** `PrivateRoutes`: its pages need a truthy token. */
  function PrivateRoutes(token: Option<string>): (g: Guard)
    ensures g.Outlet? <==> Truthy(token)
    ensures g.Navigate? ==> g.to == LoginRoute
  {
    if Truthy(token) then Outlet else Navigate(LoginRoute)
  }

  /** `PublicRoutes`: its pages need a falsy token. */
  function PublicRoutes(token: Option<string>): (g: Guard)
    ensures g.Outlet? <==> !Truthy(token)
    ensures g.Navigate? ==> g.to == DashboardRoute
  {
    if !Truthy(token) then Outlet else Navigate(DashboardRoute)
  }

  /** Where the catch-all route and both guards send a user: the landing page of the session. */
  function Home(token: Option<string>): string {
    if Truthy(token) then DashboardRoute else LoginRoute
  }

  /** The router: the first matching entry of the table, else the catch-all redirect. A path
      renders a page exactly when it is a public path and the token is falsy, or a private
      path and the token is truthy, and the page is the one the table names. Every redirect
      goes to the session's landing page: its target depends on the token alone. */
  function Route(path: string, token: Option<string>): (r: Screen)
    ensures r.Render? <==>
              (PublicPage(path).Some? && !Truthy(token)) || (PrivatePage(path).Some? && Truthy(token))
    ensures r.Render? ==> r.page == (if PublicPage(path).Some? then PublicPage(path) else PrivatePage(path)).value
    ensures r.Redirect? ==> r.to == Home(token)
  {
    if PublicPage(path).Some? then
      match PublicRoutes(token)
      case Outlet => Render(PublicPage(path).value)
      case Navigate(to) => Redirect(to)
    else if PrivatePage(path).Some? then
      match PrivateRoutes(token)
      case Outlet => Render(PrivatePage(path).value)
      case Navigate(to) => Redirect(to)
    else
      Redirect(Home(token))
  }

  /** The navigation bar, with its Logout button, is rendered when the token is truthy: exactly
      when the private guard lets its pages through and the public guard turns visitors away. */
  function NavVisible(token: Option<string>): (shown: bool)
    ensures shown <==> PrivateRoutes(token).Outlet?
    ensures shown <==> PublicRoutes(token).Navigate?
  {
    Truthy(token)
  }

  /** The navigation bar with its Logout button shows exactly when the private pages render
      and the login page does not. */
  lemma NavShownIffSignedIn(token: Option<string>)
    ensures NavVisible(token) <==> Route(DashboardRoute, token).Render?
    ensures NavVisible(token) <==> Route(InvoicesRoute, token).Render?
    ensures NavVisible(token) <==> !Route(LoginRoute, token).Render?
  {
  }

  /** Following one redirect always lands on a rendered page: no redirect chains, no loops. */
  lemma NoRedirectChain(path: string, token: Option<string>)
    ensures Route(path, token).Redirect? ==> Route(Route(path, token).to, token).Render?
  {
  }

  /** With a truthy token the public pages redirect to the dashboard; without one the private
      pages redirect to the login page. */
  lemma GuardsRedirect(token: Option<string>)
    ensures Truthy(token) ==> forall p :: p in [LoginRoute, RegisterRoute, ForgotPasswordRoute, ResetPasswordRoute] ==>
              Route(p, token) == Redirect(DashboardRoute)
    ensures !Truthy(token) ==> forall p :: p in [DashboardRoute, InvoicesRoute] ==> Route(p, token) == Redirect(LoginRoute)
  {
  }

  /** Only the token's truthiness matters: two tokens that are both truthy or both falsy route
      every path the same way. */
  lemma OnlyTruthinessMatters(path: string, t1: Option<string>, t2: Option<string>)
    requires Truthy(t1) == Truthy(t2)
    ensures Route(path, t1) == Route(path, t2)
  {
  }

  /** An invoice detail path such as `/invoices/INV-1` is not in the table and takes the
      catch-all redirect. */
  lemma InvoiceDetailPathUnrouted(invoiceNumber: string, token: Option<string>)
    ensures Route(InvoicesRoute + "/" + invoiceNumber, token) == Redirect(Home(token))
  {
    var p := InvoicesRoute + "/" + invoiceNumber;
    assert p[1] == 'i' && p[2] == 'n' && |p| > |InvoicesRoute|;
  }
}
