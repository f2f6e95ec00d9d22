/**
 * The authentication view model: ordered input validation, the state the
 * screens observe, and what the completion of each provider call does to
 * it. Calls to the authentication provider and the document database are
 * replaced by their outcomes, passed to the completion methods.
 */
module Auth {
  import opened Wrappers
  import opened Documents
  import opened Text

  datatype AuthState = Authenticated | UnAuthenticated | Loading | Error(message: string)

  const EmailEmpty: string := "Email cannot be empty"
  const PasswordEmpty: string := "Password cannot be empty"
  const PasswordShort: string := "Password must be at least 6 characters long"
  const UsernameEmpty: string := "Username cannot be empty"
  const LoginFailed: string := "Login failed"
  const RegistrationFailed: string := "Registration failed"
  const UpdateFailed: string := "Update failed"

  /** How an asynchronous provider task completed: its exception's message, when it failed. */
  datatype TaskOutcome = Succeeded | Failed(message: Option<string>)

  /** The first validation rule `login` breaks, if any. */
  function LoginError(email: string, password: string): (r: Option<string>)
    ensures r.None? <==> email != "" && password != ""
    ensures email == "" ==> r == Some(EmailEmpty)
  {
    if email == "" then Some(EmailEmpty)
    else if password == "" then Some(PasswordEmpty)
    else None
  }

  /** The first validation rule `signup` breaks, if any; the length is counted in UTF-16 units. */
  function SignupError(name: string, surname: string, email: string, password: string): (r: Option<string>)
    ensures r.None? <==> email != "" && password != "" && Utf16Length(password) >= 6 && name != "" && surname != ""
    ensures email == "" ==> r == Some(EmailEmpty)
  {
    if email == "" then Some(EmailEmpty)
    else if password == "" then Some(PasswordEmpty)
    else if Utf16Length(password) < 6 then Some(PasswordShort)
    else if name == "" then Some(UsernameEmpty)
    else if surname == "" then Some(UsernameEmpty)
    else None
  }

  /** `update` rejects a name or surname that is present but empty; a missing one passes. */
  function UpdateError(name: Option<string>, surname: Option<string>): (r: Option<string>)
    ensures r.None? <==> name != Some("") && surname != Some("")
    ensures r.Some? ==> r.value == UsernameEmpty
  {
    if name == Some("") then Some(UsernameEmpty)
    else if surname == Some("") then Some(UsernameEmpty)
    else None
  }

  /** The state a provider completion leaves: the exception's message, or the default when it has none. */
  function Completion(outcome: TaskOutcome, default: string): (s: AuthState)
    ensures s == Authenticated <==> outcome.Succeeded?
    ensures s != Authenticated ==> s.Error?
  {
    match outcome
    case Succeeded => Authenticated
    case Failed(m) => Error(m.GetOr(default))
  }

  /** The user document `signup` writes once the account exists. */
  function NewUserDoc(name: string, surname: string, email: string): (d: Doc) {
    map[
      "name" := Str(name), "surname" := Str(surname), "email" := Str(email),
      "bio" := Str(""), "username" := Str(""), "image" := Str(""),
      "posts" := List([]), "followers" := List([]), "following" := List([])]
  }

  /** A nullable string as a document value. */
  function StringValue(s: Option<string>): (v: Value) {
    match s
    case Some(v) => Str(v)
    case None => Null
  }

  /** The signed-in user's profile as the screens hold it: every field nullable. */
  class UserRecord {
    var name: Option<string>
    var surname: Option<string>
    var email: Option<string>
    var username: Option<string>
    var bio: Option<string>
    var image: Option<string>
    var posts: Option<seq<Value>>
    var followers: Option<seq<Value>>
    var following: Option<seq<Value>>

    constructor ()
      ensures name.None? && surname.None? && email.None? && username.None? && bio.None? && image.None?
      ensures posts.None? && followers.None? && following.None?
    {
      name, surname, email := None, None, None;
      username, bio, image := None, None, None;
      posts, followers, following := None, None, None;
    }

    /** The fields cleared by `logout`. */
    predicate Cleared()
      reads this
    {
      name == Some("") && surname == Some("") && email == Some("")
      && username == Some("") && bio == Some("") && image == Some("")
      && posts == Some([]) && followers == Some([]) && following == Some([])
    }
  }

  class AuthViewModel {
    var authState: AuthState

    /** `init { checkAuthStatus() }`: whether the provider already has a current user. */
    constructor (hasCurrentUser: bool)
      ensures authState == if hasCurrentUser then Authenticated else UnAuthenticated
    {
      if hasCurrentUser {
        authState := Authenticated;
      } else {
        authState := UnAuthenticated;
      }
    }

    /** `login`: `signIn` is whether the provider is asked to sign in. */
    method Login(email: string, password: string) returns (signIn: bool)
      modifies this
      ensures signIn <==> LoginError(email, password).None?
      ensures authState == if signIn then Loading else Error(LoginError(email, password).value)
    {
      if email == "" {
        authState := Error(EmailEmpty);
        return false;
      }
      if password == "" {
        authState := Error(PasswordEmpty);
        return false;
      }
      authState := Loading;
      signIn := true;
    }

    /** The sign-in task's completion listener. */
    method LoginCompleted(outcome: TaskOutcome)
      modifies this
      ensures authState == Completion(outcome, LoginFailed)
    {
      match outcome
      case Succeeded =>
        authState := Authenticated;
      case Failed(m) =>
        authState := Error(m.GetOr(LoginFailed));
    }

    /**
     * `signup`: `newUser` is the user document built for the account, present
     * exactly when validation passed and the provider is asked to create it.
     */
    method Signup(name: string, surname: string, email: string, password: string) returns (newUser: Option<Doc>)
      modifies this
      ensures newUser.Some? <==> SignupError(name, surname, email, password).None?
      ensures newUser.Some? ==> newUser.value == NewUserDoc(name, surname, email) && authState == Loading
      ensures newUser.None? ==> authState == Error(SignupError(name, surname, email, password).value)
    {
      if email == "" {
        authState := Error(EmailEmpty);
        return None;
      }
      if password == "" {
        authState := Error(PasswordEmpty);
        return None;
      }
      if Utf16Length(password) < 6 {
        authState := Error(PasswordShort);
        return None;
      }
      if name == "" {
        authState := Error(UsernameEmpty);
        return None;
      }
      if surname == "" {
        authState := Error(UsernameEmpty);
        return None;
      }
      authState := Loading;
      newUser := Some(NewUserDoc(name, surname, email));
    }

    /** The create-account task's completion listener: `writeUser` is whether the user document is written. */
    method SignupCompleted(outcome: TaskOutcome) returns (writeUser: bool)
      modifies this
      ensures authState == Completion(outcome, RegistrationFailed)
      ensures writeUser <==> outcome.Succeeded?
    {
      match outcome
      case Succeeded =>
        authState := Authenticated;
        writeUser := true;
      case Failed(m) =>
        authState := Error(m.GetOr(RegistrationFailed));
        writeUser := false;
    }

    /**
     * `logout`: every field of the record is emptied, the provider is asked
     * to sign out (`signOut`, always), and the state becomes UnAuthenticated.
     */
    method Logout(user: UserRecord) returns (signOut: bool)
      modifies this, user
      ensures user.Cleared()
      ensures signOut
      ensures authState == UnAuthenticated
    {
      user.name := Some("");
      user.surname := Some("");
      user.email := Some("");
      user.username := Some("");
      user.bio := Some("");
      user.image := Some("");
      user.posts := Some([]);
      user.followers := Some([]);
      user.following := Some([]);
      signOut := true;
      authState := UnAuthenticated;
    }

    /**
     * `update`: `changes` is the field update sent to the user document,
     * present exactly when validation passed.
     */
    method Update(user: UserRecord) returns (changes: Option<Doc>)
      modifies this
      ensures changes.Some? <==> UpdateError(user.name, user.surname).None?
      ensures changes.None? ==> authState == Error(UsernameEmpty)
      ensures changes.Some? ==> authState == Loading && changes.value == map[
        "name" := StringValue(user.name), "surname" := StringValue(user.surname),
        "bio" := StringValue(user.bio), "username" := StringValue(user.username),
        "image" := StringValue(user.image)]
    {
      if user.name == Some("") {
        authState := Error(UsernameEmpty);
        return None;
      }
      if user.surname == Some("") {
        authState := Error(UsernameEmpty);
        return None;
      }
      authState := Loading;
      changes := Some(map[
        "name" := StringValue(user.name), "surname" := StringValue(user.surname),
        "bio" := StringValue(user.bio), "username" := StringValue(user.username),
        "image" := StringValue(user.image)]);
    }

    /**
     * The update task's listeners. On failure both the completion listener
     * and the failure listener run; each writes the same error state.
     */
    method UpdateCompleted(outcome: TaskOutcome)
      modifies this
      ensures authState == Completion(outcome, UpdateFailed)
    {
      match outcome
      case Succeeded =>
        authState := Authenticated;
      case Failed(m) =>
        authState := Error(m.GetOr(UpdateFailed));
        authState := Error(m.GetOr(UpdateFailed));
    }
  }

  /** `login` checks the email before the password, and only a valid pair reaches the provider. */
  lemma LoginRules(email: string, password: string)
    ensures LoginError(email, password) == Some(EmailEmpty) <==> email == ""
    ensures LoginError(email, password) == Some(PasswordEmpty) <==> email != "" && password == ""
    ensures LoginError(email, password).None? <==> email != "" && password != ""
  {
  }

  /**
   * `signup` stops at the first broken rule, in the order email, password,
   * password length, name, surname; an empty name and an empty surname give
   * the same message.
   */
  lemma SignupRules(name: string, surname: string, email: string, password: string)
    ensures var e := SignupError(name, surname, email, password);
      (e == Some(EmailEmpty) <==> email == "")
      && (e == Some(PasswordEmpty) <==> email != "" && password == "")
      && (e == Some(PasswordShort) <==> email != "" && password != "" && Utf16Length(password) < 6)
      && (e == Some(UsernameEmpty) <==> email != "" && Utf16Length(password) >= 6 && (name == "" || surname == ""))
      && (e.None? <==> email != "" && Utf16Length(password) >= 6 && name != "" && surname != "")
  {
  }

  /** A password of one to five characters from the Basic Multilingual Plane is too short. */
  lemma {:induction false} ShortPasswordRejected(name: string, surname: string, email: string, password: string)
    requires email != "" && 0 < |password| < 6
    requires forall i | 0 <= i < |password| :: (password[i] as int) < 0x10000
    ensures SignupError(name, surname, email, password) == Some(PasswordShort)
  {
    assert Utf16Length(password) == |password|;
  }

  /** `update` rejects exactly a present, empty name or surname, with the message `signup` uses. */
  lemma UpdateRules(name: Option<string>, surname: Option<string>)
    ensures UpdateError(name, surname).Some? <==> name == Some("") || surname == Some("")
    ensures UpdateError(name, surname).Some? ==> UpdateError(name, surname) == Some(UsernameEmpty)
    ensures UpdateError(None, None).None?
  {
  }

  /** A completion is Authenticated exactly on success, and an error always carries a message. */
  lemma CompletionRules(outcome: TaskOutcome, default: string)
    ensures Completion(outcome, default) == Authenticated <==> outcome.Succeeded?
    ensures outcome == Failed(None) ==> Completion(outcome, default) == Error(default)
    ensures forall m :: outcome == Failed(Some(m)) ==> Completion(outcome, default) == Error(m)
  {
  }
}
