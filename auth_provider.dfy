/**
 * The session store: the signed-in `user`, the backend `session`, a shared
 * `loading` flag, and the session persisted under the storage key
 * `'session'` (serialisation is the identity here). Restore runs once at
 * startup; sign-in and sign-up each fail in two ways; sign-out clears
 * everything whatever the backend answers.
 */
module Auth {
  import opened Wrappers

  /** The backend's user object; opaque to the app. */
  datatype User = User(id: string)

  /** The backend's session object; `user` is the field read back at restore. */
  datatype Session = Session(accessToken: string, user: Option<User>)

  /** The answer of a sign-in or sign-up call: an error (whose message may be
      missing), or data whose session and user may each be missing. */
  datatype AuthResponse =
    | Rejected(message: Option<string>)
    | Accepted(session: Option<Session>, user: Option<User>)

  datatype Flow = SignInFlow | SignUpFlow

  /** How a sign-in or sign-up call ended: normally, or by throwing a string. */
  datatype Outcome = Completed | Thrown(message: string)

  /** The provider's fields plus the persisted `'session'` entry. */
  datatype AuthState = AuthState(user: Option<User>, session: Option<Session>, loading: bool, stored: Option<Session>)

  const UseAuthError := "useAuth must be used within AuthProvider"

  /** The message thrown when the backend reports an error without a message. */
  function FallbackMessage(flow: Flow): string {
    match flow
    case SignInFlow => "Login failed"
    case SignUpFlow => "Signup failed"
  }

  /** The message thrown when a success lacks the session or the user. */
  function InvalidResponseMessage(flow: Flow): string {
    match flow
    case SignInFlow => "Invalid login response from server."
    case SignUpFlow => "Invalid signup response from server."
  }

  /** `error.message || fallback`: an absent or empty message is falsy. */
  function ErrorText(message: Option<string>, flow: Flow): string {
    if message.Some? && message.value != "" then message.value else FallbackMessage(flow)
  }

  /** The provider as first rendered, before restore ran. */
  function Initial(stored: Option<Session>): AuthState {
    AuthState(None, None, true, stored)
  }

  /** `init`: adopt the persisted session, if any, and its user; the flag drops. */
  function Restored(s: AuthState): (r: AuthState)
    ensures !r.loading && r.stored == s.stored
    ensures s.stored.Some? ==> r.session == s.stored && r.user == s.stored.value.user
    ensures s.stored.None? ==> r.session == s.session && r.user == s.user
  {
    match s.stored
    case Some(persisted) => s.(session := Some(persisted), user := persisted.user, loading := false)
    case None => s.(loading := false)
  }

  /** `signIn` / `signUp` once the backend has answered. */
  function Authenticated(s: AuthState, flow: Flow, resp: AuthResponse): (r: (AuthState, Outcome))
    ensures !r.0.loading
    ensures r.1.Completed? <==> resp.Accepted? && resp.session.Some? && resp.user.Some?
    ensures r.1.Completed? ==>
      r.0.session == resp.session && r.0.user == resp.user && r.0.stored == resp.session
    ensures r.1.Thrown? ==> r.0 == s.(loading := false) && r.1.message != ""
    ensures resp.Rejected? && resp.message.Some? && resp.message.value != "" ==> r.1 == Thrown(resp.message.value)
    ensures resp.Rejected? && (resp.message.None? || resp.message.value == "") ==> r.1 == Thrown(FallbackMessage(flow))
    ensures resp.Accepted? && (resp.session.None? || resp.user.None?) ==> r.1 == Thrown(InvalidResponseMessage(flow))
  {
    var settled := s.(loading := false);
    match resp
    case Rejected(message) => (settled, Thrown(ErrorText(message, flow)))
    case Accepted(session, user) =>
      if session.None? || user.None? then (settled, Thrown(InvalidResponseMessage(flow)))
      else (settled.(session := session, user := user, stored := session), Completed)
  }

  /** `signOut`: the backend's answer is not consulted. */
  function SignedOut(s: AuthState): (r: AuthState)
    ensures r.user.None? && r.session.None? && r.stored.None? && !r.loading
  {
    AuthState(None, None, false, None)
  }

  /** Memory and storage agree, and a user is only known with a session. */
  predicate Consistent(s: AuthState) {
    s.session == s.stored && (s.user.Some? ==> s.session.Some?)
  }

  /** Restore makes memory agree with storage, whatever was persisted. */
  lemma RestoreEstablishesConsistency(stored: Option<Session>)
    ensures Consistent(Restored(Initial(stored)))
  {
  }

  /** Sign-in and sign-up keep memory and storage in agreement. */
  lemma AuthenticatedPreservesConsistency(s: AuthState, flow: Flow, resp: AuthResponse)
    requires Consistent(s)
    ensures Consistent(Authenticated(s, flow, resp).0)
  {
  }

  /** Sign-out leaves a consistent, signed-out state from any state. */
  lemma SignOutEstablishesConsistency(s: AuthState)
    ensures Consistent(SignedOut(s)) && SignedOut(s).user.None?
  {
  }

  /** `useAuth`: the provider's value, or the error thrown outside a provider. */
  function UseAuth(context: Option<AuthState>): (r: Result<AuthState, string>)
    ensures r.Success? <==> context.Some?
    ensures r.Success? ==> r.value == context.value
    ensures r.Failure? ==> r.error == "useAuth must be used within AuthProvider"
  {
    match context
    case Some(value) => Success(value)
    case None => Failure(UseAuthError)
  }

  class AuthProvider {
    var user: Option<User>
    var session: Option<Session>
    var loading: bool
    /** The value persisted under the `'session'` key. */
    var stored: Option<Session>

    function State(): AuthState
      reads this
    {
      AuthState(user, session, loading, stored)
    }

    constructor (persisted: Option<Session>)
      ensures State() == Initial(persisted)
    {
      user := None;
      session := None;
      loading := true;
      stored := persisted;
    }

    /** The restore effect run at startup. */
    method Init()
      modifies this
      ensures State() == Restored(old(State()))
    {
      if stored.Some? {
        session := stored;
        user := stored.value.user;
      }
      loading := false;
    }

    method SignIn(resp: AuthResponse) returns (outcome: Outcome)
      modifies this
      ensures (State(), outcome) == Authenticated(old(State()), SignInFlow, resp)
    {
      outcome := Authenticate(SignInFlow, resp);
    }

    method SignUp(resp: AuthResponse) returns (outcome: Outcome)
      modifies this
      ensures (State(), outcome) == Authenticated(old(State()), SignUpFlow, resp)
    {
      outcome := Authenticate(SignUpFlow, resp);
    }

    /** The body shared by sign-in and sign-up: the flag is raised, dropped
        once the backend answers, and only then may the call throw. */
    method Authenticate(flow: Flow, resp: AuthResponse) returns (outcome: Outcome)
      modifies this
      ensures (State(), outcome) == Authenticated(old(State()), flow, resp)
    {
      loading := true;  // the backend call is awaited between the two writes
      loading := false;
      if resp.Rejected? {
        return Thrown(ErrorText(resp.message, flow));
      }
      if resp.session.None? || resp.user.None? {
        return Thrown(InvalidResponseMessage(flow));
      }
      session := resp.session;
      user := resp.user;
      stored := resp.session;
      outcome := Completed;
    }

    method SignOut()
      modifies this
      ensures State() == SignedOut(old(State()))
    {
      loading := true;  // the backend call is awaited between the two writes
      session := None;
      user := None;
      stored := None;
      loading := false;
    }
  }
}
