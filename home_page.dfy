/** The landing page: it learns from the auth session whether someone is signed in,
    routes "Get Started" by whether that user already has a roadmap, signs out, and
    shows the badge wall and job checker overlays. The session and the roadmap
    lookup are inputs. */
module Home {
  import opened Wrappers
  import opened Browser
  import Login

  /** The store's error code for a `single` lookup that found no row. */
  const NoRowsCode := "PGRST116"

  /** The `single` roadmap lookup: whether a row came back, and the code of the
      error, if there was one. */
  datatype SingleReply = SingleReply(found: bool, errorCode: Option<string>)

  /** A `userId` that is neither `null` nor empty. */
  predicate HasUser(userId: Option<string>) {
    userId.Some? && userId.value != ""
  }

  /** Where "Get Started" leads: the login page without a user; otherwise the
      calendar exactly when a row came back without an error other than "no rows",
      and the analyzer in every other case. */
  function GetStartedPath(userId: Option<string>, reply: SingleReply): (path: string)
    ensures path == "/login" <==> !HasUser(userId)
    ensures path == "/calender" <==>
      HasUser(userId) && reply.found && (reply.errorCode.None? || reply.errorCode.value == NoRowsCode)
    ensures path == "/analyze" <==>
      HasUser(userId) && (!reply.found || (reply.errorCode.Some? && reply.errorCode.value != NoRowsCode))
  {
    assert "/login"[1] != "/calender"[1] && "/login"[1] != "/analyze"[1] && "/calender"[1] != "/analyze"[1];
    if !HasUser(userId) then "/login"
    else if reply.errorCode.Some? && reply.errorCode.value != NoRowsCode then "/analyze"
    else if reply.found then "/calender"
    else "/analyze"
  }

  /** For a signed-in user, "Get Started" and the redirect after logging in agree
      whenever the lookup does not give both a row and an error: both go to the
      calendar exactly when a row exists. */
  lemma GetStartedAgreesWithLogin(id: string, reply: SingleReply)
    requires id != ""
    requires !(reply.found && reply.errorCode.Some?)
    ensures [GetStartedPath(Some(id), reply)] ==
      Navigations(Login.LoginEffects(Login.SignedIn, Login.User(id), Login.RowResult(reply.found)))
  {
    var e := Login.LoginEffects(Login.SignedIn, Login.User(id), Login.RowResult(reply.found));
    assert e == [e[0]];
    NavigationsSingle(e[0]);
  }

  /** The effects of `handleLogout`, in order. */
  const LogoutEffects := [SignOut, RemoveItem("token"), Push("/login")]

  /** Logging out removes the stored token, leaves every other key as it was, and
      ends on the login page. */
  lemma LogoutStorage(store: map<string, string>, before: seq<Effect>)
    ensures ApplyStorage(store, before + LogoutEffects) == ApplyStorage(store, before) - {"token"}
    ensures Navigations(LogoutEffects) == ["/login"]
  {
    var p1 := before + [SignOut];
    var p2 := p1 + [RemoveItem("token")];
    var all := p2 + [Push("/login")];
    assert all == before + LogoutEffects;
    assert all[..|all| - 1] == p2 && p2[..|p2| - 1] == p1 && p1[..|p1| - 1] == before;
    assert ApplyStorage(store, p1) == ApplyStorage(store, before);
    assert ApplyStorage(store, p2) == ApplyStorage(store, before) - {"token"};
    assert ApplyStorage(store, all) == ApplyStorage(store, p2);
    assert LogoutEffects[1..][1..] == [Push("/login")];
    NavigationsSingle(Push("/login"));
  }

  /** The badge wall overlay is drawn only while it is toggled on and a user with
      an id is signed in. */
  predicate BadgeOverlayShown(showBadgeWall: bool, isLoggedIn: bool, userId: Option<string>) {
    showBadgeWall && isLoggedIn && HasUser(userId)
  }

  /** The call-to-action buttons are hidden while the badge wall is toggled on. */
  predicate CtaShown(showBadgeWall: bool) {
    !showBadgeWall
  }

  /** The overlay and the buttons are never on screen together, and a signed-out
      page never shows the overlay. */
  lemma OverlayExcludesCta(showBadgeWall: bool, isLoggedIn: bool, userId: Option<string>)
    ensures !(BadgeOverlayShown(showBadgeWall, isLoggedIn, userId) && CtaShown(showBadgeWall))
    ensures !isLoggedIn ==> !BadgeOverlayShown(showBadgeWall, isLoggedIn, userId)
  {
  }

  class HomePage {
    var isLoggedIn: bool
    var userId: Option<string>
    var showBadgeWall: bool
    var showJobChecker: bool
    var effects: seq<Effect>

    constructor ()
      ensures !isLoggedIn && userId.None? && !showBadgeWall && !showJobChecker && effects == []
    {
      isLoggedIn := false;
      userId := None;
      showBadgeWall := false;
      showJobChecker := false;
      effects := [];
    }

    /** `checkSession`: a session with a user signs the page in with that user's
        id; otherwise nothing changes. */
    method CheckSession(sessionUser: Option<string>)
      modifies this
      ensures sessionUser.Some? ==> isLoggedIn && userId == sessionUser
      ensures sessionUser.None? ==> isLoggedIn == old(isLoggedIn) && userId == old(userId)
      ensures showBadgeWall == old(showBadgeWall) && showJobChecker == old(showJobChecker)
      ensures effects == old(effects)
    {
      if sessionUser.Some? {
        isLoggedIn := true;
        userId := sessionUser;
      }
    }

    /** `handleLogout`: sign out, drop the token, go to the login page. The user id
        is kept, but the overlay is hidden because the page is signed out. */
    method Logout()
      modifies this
      ensures effects == old(effects) + LogoutEffects
      ensures !isLoggedIn && userId == old(userId)
      ensures showBadgeWall == old(showBadgeWall) && showJobChecker == old(showJobChecker)
      ensures !BadgeOverlayShown(showBadgeWall, isLoggedIn, userId)
    {
      effects := effects + [SignOut, RemoveItem("token"), Push("/login")];
      isLoggedIn := false;
    }

    /** The "Get Started" button: the lookup is made only with a user id, and the
        page navigates once. */
    method GetStarted(reply: SingleReply) returns (queried: bool)
      modifies this
      ensures queried <==> HasUser(old(userId))
      ensures effects == old(effects) + [Push(GetStartedPath(old(userId), reply))]
      ensures isLoggedIn == old(isLoggedIn) && userId == old(userId)
      ensures showBadgeWall == old(showBadgeWall) && showJobChecker == old(showJobChecker)
    {
      queried := HasUser(userId);
      effects := effects + [Push(GetStartedPath(userId, reply))];
    }

    /** The badge-wall toggle flips the overlay flag. */
    method ToggleBadgeWall()
      modifies this
      ensures showBadgeWall == !old(showBadgeWall)
      ensures isLoggedIn == old(isLoggedIn) && userId == old(userId)
      ensures showJobChecker == old(showJobChecker) && effects == old(effects)
    {
      showBadgeWall := !showBadgeWall;
    }

    /** The job-checker button flips its overlay flag. */
    method ToggleJobChecker()
      modifies this
      ensures showJobChecker == !old(showJobChecker)
      ensures isLoggedIn == old(isLoggedIn) && userId == old(userId)
      ensures showBadgeWall == old(showBadgeWall) && effects == old(effects)
    {
      showJobChecker := !showJobChecker;
    }

    /** A click on the badge wall's backdrop or close button. */
    method CloseBadgeWall()
      modifies this
      ensures !showBadgeWall
      ensures isLoggedIn == old(isLoggedIn) && userId == old(userId)
      ensures showJobChecker == old(showJobChecker) && effects == old(effects)
    {
      showBadgeWall := false;
    }

    /** A click on the job checker's backdrop or close button. */
    method CloseJobChecker()
      modifies this
      ensures !showJobChecker
      ensures isLoggedIn == old(isLoggedIn) && userId == old(userId)
      ensures showBadgeWall == old(showBadgeWall) && effects == old(effects)
    {
      showJobChecker := false;
    }
  }
}
