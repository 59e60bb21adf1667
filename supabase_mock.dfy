/**
 * The older emulated Supabase auth: an in-memory user map keyed by email and
 * the current user. Nothing is persisted and no listener is ever notified.
 */
module SupabaseMock {
  import opened Base

  /** What `signUp` stores: `{id, password, email}`. */
  datatype StoredUser = StoredUser(id: string, password: string, email: string)

  /** The `{id, email}` user the calls hand back. */
  datatype User = User(id: string, email: string)

  /** The fixed user `getUser` answers with when nobody is signed in. */
  const DemoUser := User("mock-user-id", "demo@example.com")

  const UserExists := "User already exists"
  const InvalidCredentials := "Invalid credentials"

  /** `'user_' + Math.random().toString(36).substring(7)`, with the random part passed in. */
  function NewUserId(suffix: string): string {
    "user_" + suffix
  }

  /** The subscription `onAuthStateChange` returns. */
  datatype Subscription = Subscription

  class SupabaseAuth {
    var mockUsers: map<string, StoredUser>
    var currentUser: Option<User>

    constructor ()
      ensures mockUsers == map[] && currentUser == None
    {
      mockUsers := map[];
      currentUser := None;
    }

    /** `auth.signUp({email, password})`, with `suffix` the random part of the new id. */
    method SignUp(email: string, password: string, suffix: string) returns (r: Result<User, string>)
      modifies this
      ensures email in old(mockUsers) ==>
                r == Failure(UserExists) && mockUsers == old(mockUsers) && currentUser == old(currentUser)
      ensures email !in old(mockUsers) ==>
                var newId := NewUserId(suffix);
                && r == Success(User(newId, email))
                && mockUsers == old(mockUsers)[email := StoredUser(newId, password, email)]
                && |mockUsers| == |old(mockUsers)| + 1
                && currentUser == Some(User(newId, email))
    {
      if email in mockUsers {
        return Failure(UserExists);
      }
      var newId := NewUserId(suffix);
      mockUsers := mockUsers[email := StoredUser(newId, password, email)];
      currentUser := Some(User(newId, email));
      r := Success(User(newId, email));
    }

    /** `auth.signInWithPassword({email, password})`: one error for both failures. */
    method SignInWithPassword(email: string, password: string) returns (r: Result<User, string>)
      modifies this`currentUser
      ensures email !in mockUsers || mockUsers[email].password != password ==>
                r == Failure(InvalidCredentials) && currentUser == old(currentUser)
      ensures email in mockUsers && mockUsers[email].password == password ==>
                r == Success(User(mockUsers[email].id, email)) && currentUser == Some(User(mockUsers[email].id, email))
    {
      if email !in mockUsers {
        return Failure(InvalidCredentials);
      }
      var user := mockUsers[email];
      if user.password != password {
        return Failure(InvalidCredentials);
      }
      currentUser := Some(User(user.id, email));
      r := Success(User(user.id, email));
    }

    /** `auth.signOut()`. */
    method SignOut()
      modifies this`currentUser
      ensures currentUser == None
    {
      currentUser := None;
    }

    /** `auth.getSession()`: the session is null exactly when nobody is signed in. */
    method GetSession() returns (session: Option<User>)
      ensures session.None? <==> currentUser.None?
      ensures session.Some? ==> session.value == currentUser.value
    {
      session := if currentUser.Some? then Some(currentUser.value) else None;
    }

    /** `auth.getUser()`: the signed-in user, or the demo user. */
    method GetUser() returns (user: User)
      ensures currentUser.Some? ==> user == currentUser.value
      ensures currentUser.None? ==> user == DemoUser
    {
      user := if currentUser.Some? then currentUser.value else DemoUser;
    }

    /** `auth.onAuthStateChange(callback)`: the callback is never invoked and nothing changes. */
    method OnAuthStateChange(callback: nat) returns (sub: Subscription)
      ensures unchanged(this)
    {
      sub := Subscription;
    }

    /** The subscription's `unsubscribe()`: it does nothing. */
    method Unsubscribe(sub: Subscription)
      ensures unchanged(this)
    {
    }
  }

  /** Signing up and then signing in with the same credentials gives back the signed-up id. */
  method SignUpThenSignIn(auth: SupabaseAuth, email: string, password: string, suffix: string)
    returns (first: Result<User, string>, second: Result<User, string>)
    requires email !in auth.mockUsers
    modifies auth
    ensures first == Success(User(NewUserId(suffix), email))
    ensures second == first
    ensures auth.currentUser == Some(User(NewUserId(suffix), email))
  {
    first := auth.SignUp(email, password, suffix);
    second := auth.SignInWithPassword(email, password);
  }

  /** A wrong password cannot be told apart from an unknown email. */
  method FailuresLookAlike(auth: SupabaseAuth, known: string, unknown: string, password: string)
    returns (wrong: Result<User, string>, missing: Result<User, string>)
    requires known in auth.mockUsers && auth.mockUsers[known].password != password
    requires unknown !in auth.mockUsers
    modifies auth
    ensures wrong == missing == Failure(InvalidCredentials)
    ensures auth.currentUser == old(auth.currentUser)
  {
    wrong := auth.SignInWithPassword(known, password);
    missing := auth.SignInWithPassword(unknown, password);
  }
}
