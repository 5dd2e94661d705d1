/** The session store: `session`, `user`, `loading` and `initialized`, and how
    `initialize`, `signIn`, `signUp`, `signOut` and the auth-change listener update them.
    Each action is split at its await: a `Begin` step before it and a `Complete` step
    that receives what the authentication provider returned. */
module AuthStore {

  import opened Outcomes

  datatype User = User(id: string, email: string)

  datatype Session = Session(accessToken: string, user: User)

  /** `session?.user ?? null`. */
  function UserOf(session: Option<Session>): (u: Option<User>)
    ensures u.Some? <==> session.Some?
    ensures session.Some? ==> u == Some(session.value.user)
  {
    match session
    case Some(s) => Some(s.user)
    case None => None
  }

  /** What `getSession()` produced: the session it resolved with (`null` when there is
      none, or when it reported an error, which `initialize` does not inspect), or a throw. */
  datatype SessionOutcome = SessionResolved(session: Option<Session>) | SessionRejected(thrown: Thrown)

  /** What a sign-in or sign-up call produced: `data.session` and `data.user` (sign-up may
      return a user without a session), or the error it reported or threw. */
  datatype AuthOutcome = Authenticated(session: Option<Session>, user: Option<User>) | AuthFailed(thrown: Thrown)

  /** How an action's promise settles. */
  datatype Completion = Resolved | Rethrown(thrown: Thrown)

  class Store {
    var session: Option<Session>
    var user: Option<User>
    var loading: bool
    var initialized: bool
    /** Whether `initialize` has registered the auth-change listener. */
    ghost var listening: bool

    /** The stored user is the stored session's user, and there is none without a session. */
    predicate Consistent()
      reads this
    {
      user == UserOf(session)
    }

    /** The store's initial state. */
    constructor ()
      ensures session == None && user == None && !loading && !initialized && !listening
      ensures Consistent()
    {
      session := None;
      user := None;
      loading := false;
      initialized := false;
      listening := false;
    }

    /** `initialize`: `initialized` is set on both paths; a resolved call stores the session
        and its user and registers the listener; a throw keeps session and user. */
    method Initialize(outcome: SessionOutcome)
      modifies this
      ensures initialized && loading == old(loading)
      ensures outcome.SessionResolved? ==>
                session == outcome.session && user == UserOf(outcome.session) && listening
      ensures outcome.SessionRejected? ==>
                session == old(session) && user == old(user) && listening == old(listening)
      ensures outcome.SessionResolved? || old(Consistent()) ==> Consistent()
    {
      match outcome {
        case SessionResolved(s) =>
          session, user, initialized := s, UserOf(s), true;
          listening := true;
        case SessionRejected(_) =>
          initialized := true;
      }
    }

    /** The listener registered by `initialize`: the event's session and its user replace
        the stored ones; nothing else changes. */
    method OnAuthStateChange(eventSession: Option<Session>)
      requires listening
      modifies this`session, this`user
      ensures session == eventSession && user == UserOf(eventSession)
      ensures Consistent()
    {
      session, user := eventSession, UserOf(eventSession);
    }

    /** The first `set` of `signIn`, `signUp` and `signOut`, before their await. */
    method BeginAction()
      modifies this`loading
      ensures loading
    {
      loading := true;
    }

    /** The end of `signIn` and `signUp`: success stores what the provider returned; a
        failure is rethrown with session and user kept; `loading` ends false either way. */
    method CompleteSignIn(outcome: AuthOutcome) returns (c: Completion)
      modifies this`session, this`user, this`loading
      ensures !loading
      ensures outcome.Authenticated? ==>
                c == Resolved && session == outcome.session && user == outcome.user
      ensures outcome.AuthFailed? ==>
                c == Rethrown(outcome.thrown) && session == old(session) && user == old(user)
      ensures outcome.Authenticated? ==> (Consistent() <==> outcome.user == UserOf(outcome.session))
      ensures outcome.AuthFailed? ==> Consistent() == old(Consistent())
    {
      match outcome {
        case Authenticated(s, u) =>
          session, user, loading := s, u, false;
          c := Resolved;
        case AuthFailed(thrown) =>
          loading := false;
          c := Rethrown(thrown);
      }
    }

    /** `signUp` settles exactly as `signIn` does; a sign-up awaiting email confirmation
        returns a user without a session and so leaves the store inconsistent. */
    method CompleteSignUp(outcome: AuthOutcome) returns (c: Completion)
      modifies this`session, this`user, this`loading
      ensures !loading
      ensures outcome.Authenticated? ==>
                c == Resolved && session == outcome.session && user == outcome.user
      ensures outcome.AuthFailed? ==>
                c == Rethrown(outcome.thrown) && session == old(session) && user == old(user)
      ensures outcome.Authenticated? ==> (Consistent() <==> outcome.user == UserOf(outcome.session))
      ensures outcome.AuthFailed? ==> Consistent() == old(Consistent())
    {
      c := CompleteSignIn(outcome);
    }

    /** The end of `signOut`: success clears session and user; an error is rethrown with
        both kept; `loading` ends false either way. */
    method CompleteSignOut(error: Option<Thrown>) returns (c: Completion)
      modifies this`session, this`user, this`loading
      ensures !loading
      ensures error.None? ==> c == Resolved && session == None && user == None
      ensures error.Some? ==>
                c == Rethrown(error.value) && session == old(session) && user == old(user)
      ensures error.None? || old(Consistent()) ==> Consistent()
    {
      match error {
        case None =>
          session, user, loading := None, None, false;
          c := Resolved;
        case Some(thrown) =>
          loading := false;
          c := Rethrown(thrown);
      }
    }
  }
}
