/**
 * The hospital site's landing page: it keeps the signed-in user and whether
 * the sign-in dialog is open, and shows the dashboard instead of the landing
 * content once the user has a role.
 */
module IndexPage {
  import opened Options
  import Dashboard
  import AuthModal
  import Strings

  /** `user`: a role (or `null`) and a display name. */
  datatype User = User(role: Option<string>, name: string)

  const SignedOut := User(None, "")

  /** `if (user.role)`: a role counts only when it is non-null and not empty. */
  predicate HasRole(u: User) {
    u.role.Some? && u.role.value != ""
  }

  datatype Page = Landing | DashboardPage(view: Dashboard.View, role: string, name: string)

  /** Which page is rendered for `u`. */
  function Render(u: User): (p: Page)
    ensures p.DashboardPage? <==> HasRole(u)
    ensures p.DashboardPage? ==> p.role == u.role.value && p.name == u.name &&
                                 p.view == Dashboard.ViewFor(u.role.value)
  {
    if HasRole(u) then DashboardPage(Dashboard.ViewFor(u.role.value), u.role.value, u.name) else Landing
  }

  /**
   * A simulated login lands on the dashboard of the role the email selects:
   * "admin" in the email gives the admin view.
   */
  lemma DemoLoginReachesDashboard(email: string)
    ensures var l := AuthModal.DemoLogin(email);
      var p := Render(User(Some(l.role), l.name));
      p.DashboardPage? && p.name == l.name &&
      (p.view == Dashboard.AdminView <==> exists i :: Strings.OccursAt(email, "admin", i))
  {
  }

  /** A registration without a selected role (`role` still "") leaves the landing page up. */
  lemma RegisterWithoutRoleStaysOnLanding(name: string)
    ensures Render(User(Some(""), name)) == Landing
  {
  }

  class App {
    var user: User
    var isAuthModalOpen: bool

    constructor ()
      ensures user == SignedOut && !isAuthModalOpen
      ensures Render(user) == Landing
    {
      user := SignedOut;
      isAuthModalOpen := false;
    }

    /** `handleLogin`, passed to the dialog as `onLogin`. */
    method HandleLogin(role: string, name: string)
      modifies this
      ensures user == User(Some(role), name)
      ensures isAuthModalOpen == old(isAuthModalOpen)
    {
      user := User(Some(role), name);
    }

    /** `handleLogout`: back to the signed-out user from any state. */
    method HandleLogout()
      modifies this
      ensures user == SignedOut && Render(user) == Landing
      ensures isAuthModalOpen == old(isAuthModalOpen)
    {
      user := SignedOut;
    }

    /** "Get Started", "Start Free Trial" and the navigation's login: they only open the dialog. */
    method OpenAuthModal()
      modifies this
      ensures isAuthModalOpen && user == old(user)
    {
      isAuthModalOpen := true;
    }

    /** The dialog's `onClose`. */
    method CloseAuthModal()
      modifies this
      ensures !isAuthModalOpen && user == old(user)
    {
      isAuthModalOpen := false;
    }
  }

  /**
   * Logging in with a role shows that role's dashboard; logging out again
   * gives back the signed-out user and the landing page.
   */
  method LoginThenLogout(role: string, name: string) returns (during: Page, after: User)
    ensures during == if role == "" then Landing else DashboardPage(Dashboard.ViewFor(role), role, name)
    ensures after == SignedOut && Render(after) == Landing
  {
    var app := new App();
    app.HandleLogin(role, name);
    during := Render(app.user);
    app.HandleLogout();
    after := app.user;
  }
}
