/**
 * The account menu in the header: it decides on mount whether the visitor is signed in or a
 * guest, and opens, closes and logs out on the user's clicks.
 */
module UserMenu {
  import opened Wrappers
  import opened AuthClient

  const GuestName := "Guest"
  const GuestEmail := "Not logged in"
  const HomeRoute := "/"
  const LoginRoute := "/login"

  /** How the token check ended: its answer, or a thrown error (network failure). */
  datatype CheckOutcome = Answered(response: CheckResponse) | Threw

  /** The name on the menu button. */
  function DisplayName(user: Option<StoredUser>): (r: string)
    ensures user.None? ==> r == GuestName
    ensures user.Some? ==> r == user.value.name
  {
    if user.Some? then user.value.name else GuestName
  }

  /** The email line of the open menu. */
  function DisplayEmail(user: Option<StoredUser>): (r: string)
    ensures user.None? ==> r == GuestEmail
    ensures user.Some? ==> r == user.value.email
  {
    if user.Some? then user.value.email else GuestEmail
  }

  /** The user the check establishes: only an authenticated answer that carries a user. */
  function CheckedUser(outcome: CheckOutcome): (r: Option<StoredUser>)
    ensures r.Some? <==> outcome.Answered? && outcome.response.authenticated && outcome.response.user.Some?
    ensures r.Some? ==> r == outcome.response.user
  {
    match outcome
    case Answered(response) => if response.authenticated && response.user.Some? then response.user else None
    case Threw => None
  }

  class Menu {
    var isOpen: bool
    var user: Option<StoredUser>
    var isGuest: bool

    /** Once the visitor is known: a user is shown exactly when the menu is not in guest mode. */
    predicate Settled()
      reads this
    {
      user.Some? <==> !isGuest
    }

    /** Mounting: closed, no user, and not yet a guest, until `LoadUser` has run. */
    constructor ()
      ensures !isOpen && user.None? && !isGuest
    {
      isOpen := false;
      user := None;
      isGuest := false;
    }

    /**
     * `loadUser`: with both a stored user and a non-empty token in the browser, the token is
     * checked (`checkCalled`) and the user is whatever an authenticated answer carries; without
     * them, or when the check fails or throws, the visitor is a guest. `outcome` is what the
     * check would return.
     */
    method LoadUser(browser: Browser, outcome: CheckOutcome) returns (checkCalled: bool)
      modifies this
      ensures Settled() && isOpen == old(isOpen)
      ensures checkCalled <==> browser.GetUserInfo().Some? && browser.GetAuthToken().Some? && browser.GetAuthToken().value != ""
      ensures checkCalled ==> user == CheckedUser(outcome)
      ensures !checkCalled ==> user.None? && isGuest
    {
      var userInfo := browser.GetUserInfo();
      var token := browser.GetAuthToken();
      if userInfo.Some? && token.Some? && token.value != "" {
        checkCalled := true;
        match outcome {
          case Answered(status) =>
            if status.authenticated && status.user.Some? {
              user := status.user;
              isGuest := false;
            } else {
              user := None;
              isGuest := true;
            }
          case Threw =>
            user := None;
            isGuest := true;
        }
      } else {
        checkCalled := false;
        user := None;
        isGuest := true;
      }
    }

    method HandleToggle()
      modifies this
      ensures isOpen == !old(isOpen) && user == old(user) && isGuest == old(isGuest)
    {
      isOpen := !isOpen;
    }

    method HandleClose()
      modifies this
      ensures !isOpen && user == old(user) && isGuest == old(isGuest)
    {
      isOpen := false;
    }

    /** `handleLogout`: storage cleared of the credentials, guest mode, menu closed, back to the home page. */
    method HandleLogout(browser: Browser) returns (route: string)
      modifies this, browser
      ensures Settled() && user.None? && isGuest && !isOpen
      ensures browser.GetAuthToken().None? && browser.GetUserInfo().None?
      ensures forall k | k in old(browser.storage) && k != TokenKey && k != UserKey ::
        k in browser.storage && browser.storage[k] == old(browser.storage)[k]
      ensures route == HomeRoute
    {
      browser.Logout();
      user := None;
      isGuest := true;
      isOpen := false;
      route := HomeRoute;
    }

    /** `handleLogin`: the menu closes and the login page opens. */
    method HandleLogin() returns (route: string)
      modifies this
      ensures !isOpen && user == old(user) && isGuest == old(isGuest)
      ensures route == LoginRoute
    {
      isOpen := false;
      route := LoginRoute;
    }
  }

  /**
   * An authenticated answer that carries a user shows that user's name; a non-OK response
   * (read as the guest answer) and a thrown check both leave the visitor a guest.
   */
  lemma CheckedVisitorShown(response: CheckResponse)
    requires response.authenticated && response.user.Some?
    ensures CheckedUser(Answered(response)) == response.user
    ensures DisplayName(CheckedUser(Answered(response))) == response.user.value.name
    ensures DisplayName(CheckedUser(Threw)) == GuestName
    ensures DisplayName(CheckedUser(Answered(CheckAuth(false, response)))) == GuestName
  {
  }
}
