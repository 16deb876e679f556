/** The client's session: the signed-in user and the bearer token, the token's
    persisted copy, and the actions that sign in, register, refresh the user and
    sign out. Signing out also empties the station cache. */
module AuthStore {
  import opened Values
  import opened Text
  import StationStore

  datatype User = User(id: string, name: string, email: string, role: string)

  /** The body of a successful login or register response. */
  datatype Credentials = Credentials(token: string, user: User)

  /** What an action resolves to: `{ success: true }` or `{ success: false, error }`. */
  datatype Outcome = Succeeded | Failed(error: string)

  const MissingFields := "All fields are required"
  const ShortPassword := "Password must be at least 6 characters long"
  const BadEmail := "Please enter a valid email address"
  const LoginFailed := "Login failed"
  const RegistrationFailed := "Registration failed"
  const FetchUserFailed := "Failed to fetch user"

  /** The checks `register` makes before sending anything, in order: every field
      present, a password of at least six characters, an '@' in the email. */
  function PreValidate(name: Option<string>, email: Option<string>, password: Option<string>): (r: Option<string>)
    ensures r == None <==>
      Truthy(name) && Truthy(email) && Truthy(password) && |password.value| >= 6 && '@' in email.value
    ensures r == Some(MissingFields) <==> !(Truthy(name) && Truthy(email) && Truthy(password))
    ensures r == Some(ShortPassword) <==>
      Truthy(name) && Truthy(email) && Truthy(password) && |password.value| < 6
    ensures r == Some(BadEmail) <==>
      Truthy(name) && Truthy(email) && Truthy(password) && |password.value| >= 6 && '@' !in email.value
  {
    if !Truthy(name) || !Truthy(email) || !Truthy(password) then Some(MissingFields)
    else if |password.value| < 6 then Some(ShortPassword)
    else if '@' !in email.value then Some(BadEmail)
    else None
  }

  /** The message `register` reports for a failed request: the server's
      validation messages joined by ", " when it sent an `errors` list (even an
      empty one), else its `message`, else a default. */
  function RegisterError(message: Option<string>, errors: Option<seq<string>>): string {
    if errors.Some? then Join(errors.value, ", ") else OrElse(message, RegistrationFailed)
  }

  /** Several validation messages are reported in the server's order, separated
      by ", ". */
  lemma RegisterErrorOrder(errors: seq<string>, last: string, message: Option<string>)
    requires errors != []
    ensures RegisterError(message, Some(errors + [last])) == RegisterError(message, Some(errors)) + ", " + last
  {
    JoinSnoc(errors, last, ", ");
  }

  class Session {
    var user: Option<User>
    var token: Option<string>
    /** The `token` entry of `localStorage`. */
    var persistedToken: Option<string>
    /** The station store, which signing out clears. */
    const stationStore: StationStore.StationCache

    /** The store's initial state: the token is restored from storage, where an
        empty entry counts as none. */
    constructor (stored: Option<string>, cache: StationStore.StationCache)
      ensures stationStore == cache && user == None && persistedToken == stored
      ensures token == (if Truthy(stored) then stored else None)
      ensures IsAuthenticated() <==> Truthy(stored)
    {
      stationStore := cache;
      user := None;
      persistedToken := stored;
      token := if Truthy(stored) then stored else None;
    }

    /** The `isAuthenticated` getter: `!!token`. */
    predicate IsAuthenticated()
      reads this
    {
      Truthy(token)
    }

    /** The `userRole` getter. */
    function UserRole(): Option<string>
      reads this
    {
      if user.Some? then Some(user.value.role) else None
    }

    /** `login(email, password)`. */
    method Login(email: string, password: string, response: Http<Credentials>) returns (result: Outcome)
      modifies this
      ensures response.Delivered? ==>
        && token == Some(response.data.token) && user == Some(response.data.user)
        && persistedToken == Some(response.data.token)
        && result == Succeeded
        && (IsAuthenticated() <==> response.data.token != "")
      ensures response.Rejected? ==>
        && token == old(token) && user == old(user) && persistedToken == old(persistedToken)
        && result == Failed(OrElse(response.message, LoginFailed))
    {
      if response.Delivered? {
        token := Some(response.data.token);
        user := Some(response.data.user);
        persistedToken := Some(response.data.token);
        result := Succeeded;
      } else {
        result := Failed(OrElse(response.message, LoginFailed));
      }
    }

    /** `register(name, email, password)`: the pre-checks run first, and only when
        they pass is the request sent; `requested` tells whether it was. */
    method Register(name: Option<string>, email: Option<string>, password: Option<string>, response: Http<Credentials>)
      returns (result: Outcome, requested: bool)
      modifies this
      ensures requested <==> PreValidate(name, email, password) == None
      ensures !requested ==>
        && result == Failed(PreValidate(name, email, password).value)
        && token == old(token) && user == old(user) && persistedToken == old(persistedToken)
      ensures requested && response.Delivered? ==>
        && token == Some(response.data.token) && user == Some(response.data.user)
        && persistedToken == Some(response.data.token)
        && result == Succeeded
      ensures requested && response.Rejected? ==>
        && token == old(token) && user == old(user) && persistedToken == old(persistedToken)
        && result == Failed(RegisterError(response.message, response.errors))
    {
      var problem := PreValidate(name, email, password);
      if problem.Some? {
        return Failed(problem.value), false;
      }
      requested := true;
      if response.Delivered? {
        token := Some(response.data.token);
        user := Some(response.data.user);
        persistedToken := Some(response.data.token);
        result := Succeeded;
      } else {
        result := Failed(RegisterError(response.message, response.errors));
      }
    }

    /** `fetchUser()`: a failure signs the user out. */
    method FetchUser(response: Http<User>) returns (result: Outcome)
      modifies this, stationStore
      ensures stationStore.loading == old(stationStore.loading)
      ensures stationStore.error == old(stationStore.error)
      ensures response.Delivered? ==>
        && user == Some(response.data) && token == old(token) && persistedToken == old(persistedToken)
        && stationStore.stations == old(stationStore.stations)
        && stationStore.currentStation == old(stationStore.currentStation)
        && result == Succeeded
      ensures response.Rejected? ==>
        && user == None && token == None && persistedToken == None
        && stationStore.stations == [] && stationStore.currentStation == None
        && !IsAuthenticated()
        && result == Failed(OrElse(response.message, FetchUserFailed))
    {
      if response.Delivered? {
        user := Some(response.data);
        result := Succeeded;
      } else {
        Logout();
        result := Failed(OrElse(response.message, FetchUserFailed));
      }
    }

    /** `logout()`: forgets the user and the token, in memory and in storage, and
        empties the station cache. */
    method Logout()
      modifies this, stationStore
      ensures user == None && token == None && persistedToken == None
      ensures !IsAuthenticated()
      ensures stationStore.stations == [] && stationStore.currentStation == None
      ensures stationStore.loading == old(stationStore.loading)
      ensures stationStore.error == old(stationStore.error)
    {
      user := None;
      token := None;
      persistedToken := None;
      stationStore.stations := [];
      stationStore.currentStation := None;
    }
  }
}
