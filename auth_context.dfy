/** The session provider: the signed-in user, the loading flag, and the copy
    of the user kept in device storage under the key 'user'
    (app/src/AuthContext.tsx). The identity provider, the JWT decoder, the
    storage engine and the backend are outside the model; what they return
    is passed in. */
module Auth {
  import opened Common

  datatype User = User(username: string, email: string, profilePicture: string)

  /** What `getItem('user')` can hand back: the JSON text that
      `completeSignIn` wrote for a user, or text that `JSON.parse` rejects. */
  datatype Stored = UserJson(user: User) | Unparsable

  /** The `type` field of the identity provider's prompt result. */
  datatype PromptType = Success | Cancel | Dismiss | Opened | Locked | Error

  /** The claims read from the decoded identity token. */
  datatype Claims = Claims(name: string, email: string, picture: string)

  /** How the session looks to the screens: before the stored user has been
      looked at, with nobody signed in, or with a user. */
  datatype SessionState = Unresolved | Anonymous | Authenticated(user: User)

  /** `JSON.stringify` of a user, as written by `completeSignIn`: reading
      it back with `Parse` gives the same user. */
  function Serialize(u: User): (r: Stored)
    ensures Parse(r) == Some(u)
  {
    UserJson(u)
  }

  /** `JSON.parse` of a stored value: the user it encodes, or `None` when
      parsing throws. */
  function Parse(s: Stored): (r: Option<User>)
    ensures r.Some? <==> s.UserJson?
  {
    match s
    case UserJson(u) => Some(u)
    case Unparsable => None
  }

  /** `useAuth`: the context value, or an error when called outside the provider. */
  function UseAuth<C>(context: Option<C>): (r: Completion<C>)
    ensures r.Raised? <==> context.None?
    ensures context.Some? ==> r.value == context.value
  {
    match context
    case None => Raised
    case Some(c) => Returned(c)
  }

  /** The single storage slot under the key 'user'. It outlives a provider:
      a restarted app builds a new provider over the same slot. */
  class Storage {
    var item: Option<Stored>

    constructor (initial: Option<Stored>)
      ensures item == initial
    {
      item := initial;
    }
  }

  class AuthProvider {
    var user: Option<User>
    var isLoading: bool
    const storage: Storage

    /** The provider mounts with nobody signed in and the loading flag up. */
    constructor (storage: Storage)
      ensures user == None && isLoading && this.storage == storage
      ensures State() == Unresolved
    {
      user := None;
      isLoading := true;
      this.storage := storage;
    }

    function State(): SessionState
      reads this
    {
      if isLoading then Unresolved
      else match user
        case None => Anonymous
        case Some(u) => Authenticated(u)
    }

    /** `loadStoredUser`: a stored value that parses becomes the user; an
        absent or unparsable value, or a failing read, leaves the user as it
        was. The loading flag is down afterwards in every case. */
    method LoadStoredUser(read: IoOutcome)
      modifies this
      ensures !isLoading && State() != Unresolved
      ensures user == if read.Completes? && storage.item.Some? && Parse(storage.item.value).Some?
                      then Parse(storage.item.value) else old(user)
    {
      if read.Completes? {
        var stored := storage.item;
        if stored.Some? {
          var parsed := Parse(stored.value);
          if parsed.Some? {
            user := parsed;
          }
        }
      }
      isLoading := false;
    }

    /** `signIn`: raises the loading flag, runs the identity provider's
        prompt (`None` when the prompt throws) and lowers the flag in a
        `finally`. Returns true exactly when the prompt reports success. */
    method SignIn(prompt: Option<PromptType>) returns (r: Completion<bool>)
      modifies this
      ensures !isLoading && user == old(user)
      ensures r == if prompt.Some? then Returned(prompt.value == Success) else Raised
    {
      isLoading := true;
      match prompt {
        case Some(kind) => r := Returned(kind == Success);
        case None => r := Raised;
      }
      isLoading := false;
    }

    /** `completeSignIn`: the new user is set at once; then it is written to
        storage, and a failing write (outside the `try`) ends the call with
        an error before the registration is sent. The registration itself
        never changes the session: a rejection or a transport error is only
        logged. `registered` says whether the backend accepted it. */
    method CompleteSignIn(username: string, email: string, profilePicture: string,
                          write: IoOutcome, registration: HttpOutcome<()>)
      returns (r: Completion<()>, posted: Option<User>, registered: bool)
      modifies this, storage
      ensures user == Some(User(username, email, profilePicture))
      ensures isLoading == old(isLoading)
      ensures write.Completes? ==>
        && r == Returned(())
        && storage.item == Some(Serialize(User(username, email, profilePicture)))
        && posted == Some(User(username, email, profilePicture))
        && registered == registration.Ok?
      ensures write.Throws? ==>
        r == Raised && storage.item == old(storage.item) && posted == None && !registered
    {
      var newUser := User(username, email, profilePicture);
      user := Some(newUser);
      if write.Throws? {
        return Raised, None, false;
      }
      storage.item := Some(Serialize(newUser));
      posted := Some(newUser);
      match registration {
        case Ok(_) => registered := true;
        case NotOk => registered := false;
        case Threw => registered := false;
      }
      r := Returned(());
    }

    /** The effect on the provider's response: a 'success' response has its
        token decoded (`None` when decoding throws) and the claims `name`,
        `email` and `picture` passed to `completeSignIn`; any other response
        changes nothing. `completeSignIn` is not awaited, so a failing
        write never makes the effect itself raise; only decoding can. */
    method OnResponse(response: Option<PromptType>, decoded: Option<Claims>,
                      write: IoOutcome, registration: HttpOutcome<()>)
      returns (r: Completion<()>)
      modifies this, storage
      ensures isLoading == old(isLoading)
      ensures response != Some(Success) ==>
        r == Returned(()) && user == old(user) && storage.item == old(storage.item)
      ensures response == Some(Success) && decoded.None? ==>
        r == Raised && user == old(user) && storage.item == old(storage.item)
      ensures response == Some(Success) && decoded.Some? ==>
        && r == Returned(())
        && user == Some(User(decoded.value.name, decoded.value.email, decoded.value.picture))
        && storage.item == (if write.Completes? then Some(Serialize(user.value)) else old(storage.item))
    {
      r := Returned(());
      if response == Some(Success) {
        match decoded {
          case None => r := Raised;
          case Some(claims) =>
            // The promise returned by completeSignIn is not awaited here.
            var _, _, _ := CompleteSignIn(claims.name, claims.email, claims.picture, write, registration);
        }
      }
    }

    /** `signOut`: the user is cleared at once, then the stored copy is
        removed; a failing removal leaves the stored copy and ends the call
        with an error. */
    method SignOut(remove: IoOutcome) returns (r: Completion<()>)
      modifies this, storage
      ensures user == None && isLoading == old(isLoading)
      ensures remove.Completes? ==> r == Returned(()) && storage.item == None
      ensures remove.Throws? ==> r == Raised && storage.item == old(storage.item)
    {
      user := None;
      if remove.Throws? {
        return Raised;
      }
      storage.item := None;
      r := Returned(());
    }
  }

  /** Sign in, then restart the app: the new provider reads back the very
      user that was signed in, whatever became of the registration. */
  method RestoreAfterRestart(session: AuthProvider, username: string, email: string, profilePicture: string,
                             registration: HttpOutcome<()>)
    returns (restarted: AuthProvider)
    modifies session, session.storage
    ensures restarted.State() == Authenticated(User(username, email, profilePicture))
    ensures restarted.storage == session.storage
  {
    var _, _, _ := session.CompleteSignIn(username, email, profilePicture, Completes, registration);
    restarted := new AuthProvider(session.storage);
    restarted.LoadStoredUser(Completes);
  }

  /** Sign out, then restart: nobody is signed in after the stored user is read. */
  method SignedOutAfterRestart(session: AuthProvider) returns (restarted: AuthProvider)
    modifies session, session.storage
    ensures restarted.State() == Anonymous
  {
    var _ := session.SignOut(Completes);
    restarted := new AuthProvider(session.storage);
    restarted.LoadStoredUser(Completes);
  }
}
