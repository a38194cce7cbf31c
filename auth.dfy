/** The `useAuth` hook: whether someone is signed in, the signed-in profile, the login and
    sign-up modals, the busy flag and the error line, and the handlers that move them. The
    Firebase calls are represented by their outcomes, given as parameters. */
module Auth {

  import opened Wrappers

  /** The guest picture a profile without one gets. */
  const DefaultProfileImage := "https://via.placeholder.com/150?text=Guest"

  const PasswordMismatch := "Passwords don't match"
  const PasswordTooShort := "Password must be at least 6 characters"

  /** A user as Firebase reports it (or as the Google button hands it over); absent fields are
      `None`. */
  datatype AccountUser = AccountUser(
    uid: string,
    displayName: Option<string>,
    email: Option<string>,
    photoURL: Option<string>,
    emailVerified: bool)

  /** The profile the hook keeps: the same fields, with a picture always present. */
  datatype Profile = Profile(
    uid: string,
    displayName: Option<string>,
    email: Option<string>,
    photoURL: string,
    emailVerified: bool)

  /** `photoURL || defaultProfileImage`: a missing or empty picture falls back to the guest
      one; any other is kept. */
  function PhotoOr(photoURL: Option<string>): (r: string)
    ensures r != ""
    ensures r == DefaultProfileImage <==> photoURL.None? || photoURL.value == "" || photoURL.value == DefaultProfileImage
    ensures photoURL.Some? && photoURL.value != "" ==> r == photoURL.value
  {
    if photoURL.None? || photoURL.value == "" then DefaultProfileImage else photoURL.value
  }

  /** The profile kept for a user: every field copied, the picture defaulted. */
  function ProfileOf(u: AccountUser): (p: Profile)
    ensures p.uid == u.uid && p.displayName == u.displayName && p.email == u.email
    ensures p.emailVerified == u.emailVerified && p.photoURL == PhotoOr(u.photoURL)
  {
    Profile(u.uid, u.displayName, u.email, PhotoOr(u.photoURL), u.emailVerified)
  }

  /** Defaulting the picture twice is defaulting it once: a stored profile handed back in keeps
      its picture. */
  lemma PhotoOrIdempotent(photoURL: Option<string>)
    ensures PhotoOr(Some(PhotoOr(photoURL))) == PhotoOr(photoURL)
  {
  }

  /** JavaScript's `password.length`: UTF-16 code units, two for a character outside the Basic
      Multilingual Plane. */
  function Utf16Length(s: string): (n: nat)
    ensures |s| <= n <= 2 * |s|
  {
    if s == [] then 0 else (if s[0] as int > 0xFFFF then 2 else 1) + Utf16Length(s[1..])
  }

  /** The length adds up over concatenation, and only characters outside the Basic Multilingual
      Plane make it exceed the character count. */
  lemma {:induction false} Utf16LengthFacts(a: string, b: string)
    ensures Utf16Length(a + b) == Utf16Length(a) + Utf16Length(b)
    ensures Utf16Length(a) == |a| <==> forall i :: 0 <= i < |a| ==> a[i] as int <= 0xFFFF
  {
    if a == [] {
      assert a + b == b;
    } else {
      assert (a + b)[1..] == a[1..] + b;
      Utf16LengthFacts(a[1..], b);
      if Utf16Length(a) == |a| {
        assert Utf16Length(a[1..]) == |a[1..]|;
        forall i | 0 <= i < |a| ensures a[i] as int <= 0xFFFF {
          if i > 0 {
            assert a[i] == a[1..][i - 1];
          }
        }
      }
      if forall i :: 0 <= i < |a| ==> a[i] as int <= 0xFFFF {
        assert forall i :: 0 <= i < |a[1..]| ==> a[1..][i] as int <= 0xFFFF by {
          forall i | 0 <= i < |a[1..]| ensures a[1..][i] as int <= 0xFFFF {
            assert a[1..][i] == a[i + 1];
          }
        }
      }
    }
  }

  /** The two checks `handleSignUp` makes before calling Firebase, in their order: the
      confirmation first, then the length. `None` lets the sign-up go ahead. */
  function SignUpCheck(password: string, confirmPassword: string): (r: Option<string>)
    ensures password != confirmPassword <==> r == Some(PasswordMismatch)
    ensures r == Some(PasswordTooShort) <==> password == confirmPassword && Utf16Length(password) < 6
    ensures r.None? <==> password == confirmPassword && Utf16Length(password) >= 6
  {
    if password != confirmPassword then Some(PasswordMismatch)
    else if Utf16Length(password) < 6 then Some(PasswordTooShort)
    else None
  }

  /** A mismatch is reported even for a password that is also too short. */
  lemma MismatchFirst()
    ensures SignUpCheck("abc", "abd") == Some(PasswordMismatch)
  {
  }

  /** A call the hook makes to Firebase Authentication. */
  datatype AuthCall =
    | SignIn(email: string, password: string)
    | CreateUser(email: string, password: string)
    | UpdateProfile(displayName: string, photoURL: string)

  class AuthState {
    var isLoggedIn: bool
    var user: Option<Profile>
    var showLoginModal: bool
    var showSignUpModal: bool
    var loading: bool
    var error: string

    /** Signed in exactly when a profile is held. */
    predicate Consistent()
      reads this
    {
      isLoggedIn <==> user.Some?
    }

    /** The open handlers never leave both modals showing. */
    predicate OneModal()
      reads this
    {
      !(showLoginModal && showSignUpModal)
    }

    constructor()
      ensures !isLoggedIn && user.None? && !showLoginModal && !showSignUpModal && !loading && error == ""
      ensures Consistent() && OneModal()
    {
      isLoggedIn := false;
      user := None;
      showLoginModal := false;
      showSignUpModal := false;
      loading := false;
      error := "";
    }

    /** The `onAuthStateChanged` listener: a user is copied in with the picture defaulted,
        `null` signs out. */
    method AuthChanged(u: Option<AccountUser>)
      modifies this
      ensures isLoggedIn == u.Some?
      ensures user == (if u.Some? then Some(ProfileOf(u.value)) else None)
      ensures Consistent()
      ensures showLoginModal == old(showLoginModal) && showSignUpModal == old(showSignUpModal)
      ensures loading == old(loading) && error == old(error)
    {
      if u.Some? {
        isLoggedIn := true;
        user := Some(ProfileOf(u.value));
      } else {
        isLoggedIn := false;
        user := None;
      }
    }

    /** `handleLogin`: clears the error, asks Firebase to sign in, closes the login modal on
        success or shows Firebase's message on failure, and is never left busy. Signing in
        itself reaches the state through the listener. */
    method HandleLogin(email: string, password: string, signIn: Result<()>) returns (calls: seq<AuthCall>)
      modifies this
      ensures calls == [SignIn(email, password)]
      ensures !loading
      ensures signIn.Ok? ==> !showLoginModal && error == ""
      ensures signIn.Err? ==> showLoginModal == old(showLoginModal) && error == signIn.message
      ensures isLoggedIn == old(isLoggedIn) && user == old(user) && showSignUpModal == old(showSignUpModal)
      ensures old(OneModal()) ==> OneModal()
    {
      loading := true;
      error := "";
      calls := [SignIn(email, password)];
      if signIn.Ok? {
        showLoginModal := false;
      } else {
        error := signIn.message;
      }
      loading := false;
    }

    /** `handleSignUp`: a failed check shows its message and calls nothing; otherwise the
        account is created and, once it exists, given the full name and the guest picture. The
        sign-up modal closes when both succeed; the first failure's message is shown. Loading
        ends on every path. */
    method HandleSignUp(fullName: string, email: string, password: string, confirmPassword: string,
                        create: Result<()>, update: Result<()>) returns (calls: seq<AuthCall>)
      modifies this
      ensures !loading
      ensures isLoggedIn == old(isLoggedIn) && user == old(user) && showLoginModal == old(showLoginModal)
      ensures SignUpCheck(password, confirmPassword).Some? ==>
                calls == [] && error == SignUpCheck(password, confirmPassword).value && showSignUpModal == old(showSignUpModal)
      ensures SignUpCheck(password, confirmPassword).None? ==>
                && |calls| == (if create.Ok? then 2 else 1)
                && calls[0] == CreateUser(email, password)
                && (create.Ok? ==> calls[1] == UpdateProfile(fullName, DefaultProfileImage))
      ensures SignUpCheck(password, confirmPassword).None? && create.Err? ==>
                error == create.message && showSignUpModal == old(showSignUpModal)
      ensures SignUpCheck(password, confirmPassword).None? && create.Ok? && update.Err? ==>
                error == update.message && showSignUpModal == old(showSignUpModal)
      ensures SignUpCheck(password, confirmPassword).None? && create.Ok? && update.Ok? ==>
                error == "" && !showSignUpModal
      ensures old(OneModal()) ==> OneModal()
    {
      loading := true;
      error := "";
      calls := [];
      if password != confirmPassword {
        error := PasswordMismatch;
        loading := false;
        return;
      }
      if Utf16Length(password) < 6 {
        error := PasswordTooShort;
        loading := false;
        return;
      }
      calls := calls + [CreateUser(email, password)];
      if create.Err? {
        error := create.message;
      } else {
        calls := calls + [UpdateProfile(fullName, DefaultProfileImage)];
        if update.Err? {
          error := update.message;
        } else {
          showSignUpModal := false;
        }
      }
      loading := false;
    }

    /** `handleGoogleSignIn`: signed in with the handed-over user, its picture defaulted, and
        both modals closed. */
    method HandleGoogleSignIn(data: AccountUser)
      modifies this
      ensures isLoggedIn && user == Some(ProfileOf(data))
      ensures !showLoginModal && !showSignUpModal
      ensures loading == old(loading) && error == old(error)
      ensures Consistent() && OneModal()
    {
      isLoggedIn := true;
      user := Some(ProfileOf(data));
      showLoginModal := false;
      showSignUpModal := false;
    }

    /** `handleLogout`: a successful sign-out clears the session; a failed one changes nothing
        (the error is only logged). */
    method HandleLogout(ok: bool)
      modifies this
      ensures ok ==> !isLoggedIn && user.None?
      ensures !ok ==> isLoggedIn == old(isLoggedIn) && user == old(user)
      ensures showLoginModal == old(showLoginModal) && showSignUpModal == old(showSignUpModal)
      ensures loading == old(loading) && error == old(error)
      ensures old(Consistent()) ==> Consistent()
    {
      if ok {
        isLoggedIn := false;
        user := None;
      }
    }

    /** `closeModals`: both hidden, the error cleared. */
    method CloseModals()
      modifies this
      ensures !showLoginModal && !showSignUpModal && error == ""
      ensures isLoggedIn == old(isLoggedIn) && user == old(user) && loading == old(loading)
      ensures OneModal()
    {
      showLoginModal := false;
      showSignUpModal := false;
      error := "";
    }

    /** `openLoginModal`: login shown, sign-up hidden, the error cleared. */
    method OpenLoginModal()
      modifies this
      ensures showLoginModal && !showSignUpModal && error == ""
      ensures isLoggedIn == old(isLoggedIn) && user == old(user) && loading == old(loading)
      ensures OneModal()
    {
      showLoginModal := true;
      showSignUpModal := false;
      error := "";
    }

    /** `openSignUpModal`: the mirror image of `openLoginModal`. */
    method OpenSignUpModal()
      modifies this
      ensures showSignUpModal && !showLoginModal && error == ""
      ensures isLoggedIn == old(isLoggedIn) && user == old(user) && loading == old(loading)
      ensures OneModal()
    {
      showSignUpModal := true;
      showLoginModal := false;
      error := "";
    }
  }
}
