/** The login page: sign in with e-mail and password, look up the signed-in user,
    then send them to the calendar if a roadmap row exists for them and to the
    analyzer otherwise. Each auth or store call is an input: what it answered, or
    that it threw. */
module Login {
  import opened Wrappers
  import opened Browser

  /** `signInWithPassword`: it threw, answered with an error message, or succeeded. */
  datatype SignInReply = SignInThrew | SignInError(message: string) | SignedIn

  /** `getUser`: it threw, answered with an error, answered without a user, or
      gave the user's id. */
  datatype UserReply = UserThrew | UserError | NoUser | User(id: string)

  /** The `maybeSingle` roadmap lookup: it threw, or gave a row or `null`. Its error
      is not read; an error comes with `null` data, so it counts as no row. */
  datatype RowReply = RowThrew | RowResult(found: bool)

  const ErrorTitle := "Oops..."
  const UserFailedText := "Could not fetch user details."
  const ThrewText := "Something went wrong, please try again."

  function ErrorPopup(text: string): Effect {
    Popup("error", ErrorTitle, text)
  }

  /** `error.message || 'Login failed'`. */
  function SignInErrorText(message: string): (text: string)
    ensures text == (if message != "" then message else "Login failed")
    ensures text != ""
  {
    if message != "" then message else "Login failed"
  }

  /** Where a user whose roadmap lookup gave `found` is sent. */
  function RedirectPath(found: bool): string {
    if found then "/calender" else "/analyze"
  }

  /** The effects of `handleLogin` once the calls have answered: one error pop-up
      and no navigation when any call fails or throws, otherwise one navigation. */
  function LoginEffects(signIn: SignInReply, user: UserReply, row: RowReply): (effects: seq<Effect>)
    ensures |effects| == 1
    ensures Navigations(effects) != [] <==> signIn.SignedIn? && user.User? && row.RowResult?
    ensures Navigations(effects) == ["/calender"] <==> signIn.SignedIn? && user.User? && row == RowResult(true)
    ensures Navigations(effects) == ["/analyze"] <==> signIn.SignedIn? && user.User? && row == RowResult(false)
    ensures Navigations(effects) == [] ==> effects[0].Popup? && effects[0].icon == "error" && effects[0].title == ErrorTitle
    ensures signIn.SignInError? ==> effects == [ErrorPopup(SignInErrorText(signIn.message))]
    ensures signIn.SignedIn? && (user.UserError? || user.NoUser?) ==> effects == [ErrorPopup(UserFailedText)]
    ensures (signIn.SignInThrew? || (signIn.SignedIn? && user.UserThrew?) || (signIn.SignedIn? && user.User? && row.RowThrew?))
      ==> effects == [ErrorPopup(ThrewText)]
  {
    var effects :=
      match signIn
      case SignInThrew => [ErrorPopup(ThrewText)]
      case SignInError(m) => [ErrorPopup(SignInErrorText(m))]
      case SignedIn =>
        match user
        case UserThrew => [ErrorPopup(ThrewText)]
        case User(_) =>
          (match row
           case RowThrew => [ErrorPopup(ThrewText)]
           case RowResult(found) => [Push(RedirectPath(found))])
        case _ => [ErrorPopup(UserFailedText)];
    assert effects == [effects[0]];
    NavigationsSingle(effects[0]);
    assert "/calender" != "/analyze" by { assert "/calender"[1] != "/analyze"[1]; }
    effects
  }

  /** The id the roadmap lookup is made for: only a successful sign-in followed by
      a user leads to the lookup. */
  function LookupFor(signIn: SignInReply, user: UserReply): (id: Option<string>)
    ensures id.Some? <==> signIn.SignedIn? && user.User?
    ensures id.Some? ==> id.value == user.id
  {
    if signIn.SignedIn? && user.User? then Some(user.id) else None
  }

  /** A failed sign-in or user lookup never navigates, whatever the later calls
      would have answered. */
  lemma FailureStaysOnPage(signIn: SignInReply, user: UserReply, row: RowReply)
    requires !signIn.SignedIn? || !user.User?
    ensures Navigations(LoginEffects(signIn, user, row)) == []
    ensures LookupFor(signIn, user).None?
  {
    var e := LoginEffects(signIn, user, row);
    assert e == [e[0]];
    NavigationsSingle(e[0]);
  }

  class LoginPage {
    var email: string
    var password: string
    var loading: bool
    var effects: seq<Effect>

    constructor ()
      ensures email == "" && password == "" && !loading && effects == []
    {
      email := "";
      password := "";
      loading := false;
      effects := [];
    }

    /** Typing into the e-mail field. */
    method SetEmail(text: string)
      modifies this
      ensures email == text && password == old(password) && loading == old(loading) && effects == old(effects)
    {
      email := text;
    }

    /** Typing into the password field. */
    method SetPassword(text: string)
      modifies this
      ensures password == text && email == old(email) && loading == old(loading) && effects == old(effects)
    {
      password := text;
    }

    /** `handleLogin` up to the first call: loading starts and the credentials are
        sent as typed. */
    method Start() returns (credentials: (string, string))
      modifies this
      ensures credentials == (email, password) && email == old(email) && password == old(password)
      ensures loading && effects == old(effects)
    {
      loading := true;
      credentials := (email, password);
    }

    /** The calls have answered: loading ends on every path, before the navigation. */
    method Settle(signIn: SignInReply, user: UserReply, row: RowReply)
      modifies this
      ensures !loading && effects == old(effects) + LoginEffects(signIn, user, row)
      ensures email == old(email) && password == old(password)
    {
      loading := false;
      effects := effects + LoginEffects(signIn, user, row);
    }

    /** `handleLogin` from submission to the end. */
    method HandleLogin(signIn: SignInReply, user: UserReply, row: RowReply)
      returns (credentials: (string, string), lookup: Option<string>)
      modifies this
      ensures credentials == (old(email), old(password))
      ensures email == old(email) && password == old(password)
      ensures lookup == LookupFor(signIn, user)
      ensures !loading && effects == old(effects) + LoginEffects(signIn, user, row)
    {
      credentials := Start();
      lookup := LookupFor(signIn, user);
      Settle(signIn, user, row);
    }
  }
}
