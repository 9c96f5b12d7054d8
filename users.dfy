/** The process-lifetime user table and the create-or-authenticate login rule. */
module Users {
  import opened Optional

  datatype User = User(password: string, role: string)

  datatype LoginOutcome =
    | Rejected(error: string)
    | LoggedIn(username: string, role: string)

  /** The new user table together with what the login produced. */
  datatype LoginStep = LoginStep(users: map<string, User>, outcome: LoginOutcome)

  const FillAllFields: string := "Please fill in all fields."
  const InvalidPassword: string := "Invalid password."
  const DefaultRole: string := "patient"

  /** A POST to the login form. An unknown user name is registered with the
      requested role; a known one must give its stored password and keeps its
      stored role. */
  function Login(users: map<string, User>, username: Option<string>, password: Option<string>,
                 role: Option<string>): (r: LoginStep)
    // a missing or empty field is refused and registers nobody
    ensures Blank(username) || Blank(password) ==> r == LoginStep(users, Rejected(FillAllFields))
    // a refused login leaves the table as it was
    ensures r.outcome.Rejected? ==> r.users == users
    // an entry is never overwritten or removed, and only the given name may be added
    ensures forall u :: u in users ==> u in r.users && r.users[u] == users[u]
    ensures forall u :: u in r.users ==> u in users || Some(u) == username
    // a known user gets in exactly when the password is the stored one
    ensures !Blank(username) && !Blank(password) && username.value in users ==>
              (r.outcome.LoggedIn? <==> users[username.value].password == password.value)
    // an unknown user is registered with the requested role, "patient" by default
    ensures !Blank(username) && !Blank(password) && username.value !in users ==>
              r.outcome == LoggedIn(username.value, ValueOr(role, DefaultRole))
              && username.value in r.users && r.users[username.value] == User(password.value, ValueOr(role, DefaultRole))
    // a session always belongs to a table entry with that password, and carries the stored role
    ensures r.outcome.LoggedIn? ==>
              && username == Some(r.outcome.username)
              && r.outcome.username in r.users
              && r.users[r.outcome.username] == User(password.value, r.outcome.role)
  {
    if Blank(username) || Blank(password) then LoginStep(users, Rejected(FillAllFields))
    else if username.value in users then
      if users[username.value].password != password.value then LoginStep(users, Rejected(InvalidPassword))
      else LoginStep(users, LoggedIn(username.value, users[username.value].role))
    else
      var role' := ValueOr(role, DefaultRole);
      LoginStep(users[username.value := User(password.value, role')], LoggedIn(username.value, role'))
  }

  /** A second login with the same credentials succeeds, changes nothing and
      gives the same session, whatever role it asks for. */
  lemma LoginAgain(users: map<string, User>, username: Option<string>, password: Option<string>,
                   role: Option<string>, role2: Option<string>)
    requires Login(users, username, password, role).outcome.LoggedIn?
    ensures var first := Login(users, username, password, role);
            Login(first.users, username, password, role2) == first
  {
  }
}
