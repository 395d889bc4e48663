/** The session context: one mutable `user` slot that `login` fills with the
    mock user of a role and `logout` clears. */
module Auth {
  import opened Wrappers
  import opened ClaimTypes

  /** The fixed user record for each role. */
  function MockUser(role: UserRole): (u: User)
    ensures u.role == role
    ensures u.id == (match role case Customer => "1" case Adjuster => "2" case Admin => "3")
  {
    match role
    case Customer => User("1", "John Customer", "customer@example.com", Customer)
    case Adjuster => User("2", "Sarah Adjuster", "adjuster@example.com", Adjuster)
    case Admin => User("3", "Mike Admin", "admin@example.com", Admin)
  }

  /** The three mock users are told apart by their ids. */
  lemma MockUserIdsDistinct(r1: UserRole, r2: UserRole)
    ensures MockUser(r1).id == MockUser(r2).id <==> r1 == r2
  {
  }

  class AuthSession {
    var user: Option<User>

    /** `!!user`: a session is authenticated exactly when a user is present. */
    predicate IsAuthenticated()
      reads this
    {
      user.Some?
    }

    /** A fresh provider holds no user. */
    constructor()
      ensures user == None && !IsAuthenticated()
    {
      user := None;
    }

    /** Replaces whatever user was there by the mock user of `role`. */
    method Login(role: UserRole)
      modifies this
      ensures user == Some(MockUser(role))
      ensures IsAuthenticated() && user.value.role == role
    {
      user := Some(MockUser(role));
    }

    method Logout()
      modifies this
      ensures user == None && !IsAuthenticated()
    {
      user := None;
    }
  }

  /** A later login overwrites an earlier one; logging in twice with the same
      role leaves the session as one login would. */
  method LoginTwice(session: AuthSession, first: UserRole, second: UserRole)
    modifies session
    ensures session.user == Some(MockUser(second))
    ensures first == second ==> session.user == Some(MockUser(first))
  {
    session.Login(first);
    session.Login(second);
  }

  /** Reading the context outside a provider is an error; inside one it yields that provider's session. */
  function UseAuth(provider: Option<AuthSession>): (r: Result<AuthSession, string>)
    ensures r.Ok? <==> provider.Some?
    ensures r.Ok? ==> r.value == provider.value
    ensures r.Err? ==> r.error == "useAuth must be used within an AuthProvider"
  {
    match provider
    case None => Err("useAuth must be used within an AuthProvider")
    case Some(session) => Ok(session)
  }
}
