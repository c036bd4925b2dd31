/** Users, sessions and the auth service: registration, login, the stored
    session and logout, over the storage keys "users" and "session".

    The storage keys are the fields `users` and `session` (absent key =
    `None`); the generated ids and tokens are parameters. */
module Auth {
  import opened Outcomes
  import opened Seqs

  datatype User = User(id: string, email: string, password: string)

  /** The user as a session carries it: id and email, never the password. */
  datatype SessionUser = SessionUser(id: string, email: string)

  datatype Session = Session(token: string, user: SessionUser)

  const EmailTakenMessage := "Email sudah terdaftar"
  const BadCredentialsMessage := "Email atau password salah"

  /** The callback `u => u.email === email`. */
  function HasEmail(email: string): User -> bool
  {
    (u: User) => u.email == email
  }

  /** The callback `u => u.email === email && u.password === password`. */
  function HasCredentials(email: string, password: string): User -> bool
  {
    (u: User) => u.email == email && u.password == password
  }

  predicate EmailRegistered(users: seq<User>, email: string)
  {
    exists i :: 0 <= i < |users| && users[i].email == email
  }

  predicate CredentialsMatch(users: seq<User>, email: string, password: string)
  {
    exists i :: 0 <= i < |users| && users[i].email == email && users[i].password == password
  }

  /** The session login creates for a user. */
  function SessionFor(u: User, token: string): Session
  {
    Session(token, SessionUser(u.id, u.email))
  }

  /** The user a login with these credentials signs in, if any: the first
      stored user whose email and password both match exactly. */
  function Authenticate(users: seq<User>, email: string, password: string): (r: Option<User>)
    ensures r.None? <==> !CredentialsMatch(users, email, password)
    ensures r.Some? ==> exists k :: 0 <= k < |users| && users[k] == r.value
                                    && FirstMatch(users, HasCredentials(email, password), k)
  {
    Find(users, HasCredentials(email, password))
  }

  class AuthService {
    /** The list stored under "users"; `None` while the key is absent. */
    var users: Option<seq<User>>
    /** The record stored under "session"; `None` while the key is absent. */
    var session: Option<Session>

    /** Starts from whatever the storage holds. */
    constructor (initialUsers: Option<seq<User>>, initialSession: Option<Session>)
      ensures users == initialUsers && session == initialSession
    {
      users := initialUsers;
      session := initialSession;
    }

    /** `getUsers`: the stored users, where a missing key reads as empty. */
    function GetUsers(): (r: seq<User>)
      reads this
      ensures users.None? ==> r == []
      ensures users.Some? ==> r == users.value
    {
      if users.Some? then users.value else []
    }

    /** `getSession`: the stored session, absent when the key is. */
    function GetSession(): (r: Option<Session>)
      reads this
      ensures r.None? <==> session.None?
      ensures r.Some? ==> r.value == session.value
    {
      session
    }

    /** `register`: refuses an email some stored user already has, otherwise
        appends the new user. The session is never touched. */
    method Register(email: string, password: string, newId: string) returns (r: Result<()>)
      modifies this
      ensures r.Err? <==> EmailRegistered(old(GetUsers()), email)
      ensures r.Err? ==> r.error == EmailTakenMessage && users == old(users)
      ensures r.Ok? ==> users == Some(old(GetUsers()) + [User(newId, email, password)])
      ensures session == old(session)
    {
      var stored := GetUsers();
      var existing := Find(stored, HasEmail(email));
      if existing.Some? {
        return Err(EmailTakenMessage);
      }
      stored := stored + [User(newId, email, password)];
      users := Some(stored);
      r := Ok(());
    }

    /** `login`: signs in the first user whose email and password both match,
        storing and returning a new session; otherwise fails and leaves the
        stored session alone. The users are never touched. */
    method Login(email: string, password: string, token: string) returns (r: Result<Session>)
      modifies this
      ensures r.Err? <==> !CredentialsMatch(old(GetUsers()), email, password)
      ensures r.Err? ==> r.error == BadCredentialsMessage && session == old(session)
      ensures r.Ok? ==> var u := Authenticate(old(GetUsers()), email, password);
                        u.Some? && r.value == SessionFor(u.value, token)
      ensures r.Ok? ==> session == Some(r.value)
      ensures users == old(users)
    {
      var stored := GetUsers();
      var user := Find(stored, HasCredentials(email, password));
      if user.None? {
        return Err(BadCredentialsMessage);
      }
      var s := Session(token, SessionUser(user.value.id, user.value.email));
      session := Some(s);
      return Ok(s);
    }

    /** `logout`: removes the stored session. */
    method Logout()
      modifies this
      ensures GetSession() == None
      ensures users == old(users)
    {
      session := None;
    }
  }

  /** Once a user is registered with an email, a second registration with
      it is refused. */
  lemma RegisteredEmailIsTaken(users: seq<User>, u: User)
    ensures EmailRegistered(users + [u], u.email)
  {
    assert (users + [u])[|users|] == u;
  }

  /** After registering a new email with a password, logging in with the
      same pair signs in exactly the new user. */
  lemma LoginAfterRegister(users: seq<User>, u: User)
    requires !EmailRegistered(users, u.email)
    ensures Authenticate(users + [u], u.email, u.password) == Some(u)
  {
    var s := users + [u];
    var p := HasCredentials(u.email, u.password);
    assert FirstMatch(s, p, |users|) by {
      forall i | 0 <= i < |users| ensures !p(s[i]) {
        assert s[i] == users[i];
      }
    }
    FindIndexIsFirstMatch(s, p, |users|);
  }

  /** A login whose credentials match nobody fails whatever else is stored. */
  lemma WrongPasswordFails(users: seq<User>, email: string, password: string)
    requires forall i :: 0 <= i < |users| && users[i].email == email ==> users[i].password != password
    ensures Authenticate(users, email, password) == None
  {
  }

  /** Registering a new email and then logging in with the same pair
      succeeds and signs in the user just created. */
  method RegisterThenLogin(svc: AuthService, email: string, password: string, newId: string, token: string)
    returns (s: Result<Session>)
    requires !EmailRegistered(svc.GetUsers(), email)
    modifies svc
    ensures s.Ok? && s.value.user == SessionUser(newId, email)
    ensures svc.GetSession() == Some(s.value)
  {
    var r := svc.Register(email, password, newId);
    LoginAfterRegister(old(svc.GetUsers()), User(newId, email, password));
    s := svc.Login(email, password, token);
  }
}
