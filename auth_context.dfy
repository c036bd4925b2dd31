/** The auth state holder: the signed-in session the views read and an
    `isLoading` flag that stays true until the stored session is read. */
module AuthContext {
  import opened Outcomes
  import opened Auth

  class AuthProvider {
    /** The service the holder delegates to. */
    const service: AuthService
    var session: Option<Session>
    var isLoading: bool

    /** The initial state: no session, still loading. */
    constructor (service: AuthService)
      ensures this.service == service
      ensures session == None && isLoading
    {
      this.service := service;
      session := None;
      isLoading := true;
    }

    /** The mount effect: take over the stored session and stop loading. */
    method Hydrate()
      modifies this
      ensures session == service.GetSession() && !isLoading
    {
      var storedSession := service.GetSession();
      session := storedSession;
      isLoading := false;
    }

    /** `login`: on success the held session is the one the service
        returned; a failure is passed on and the held session stays. */
    method Login(email: string, password: string, token: string) returns (r: Result<()>)
      modifies this, service
      ensures r.Err? <==> !CredentialsMatch(old(service.GetUsers()), email, password)
      ensures r.Err? ==> r.error == BadCredentialsMessage && session == old(session)
      ensures r.Err? ==> service.session == old(service.session)
      ensures r.Ok? ==> session == service.GetSession() && session.Some?
      ensures r.Ok? ==> var u := Authenticate(old(service.GetUsers()), email, password);
                        u.Some? && session == Some(SessionFor(u.value, token))
      ensures service.users == old(service.users) && isLoading == old(isLoading)
    {
      var s := service.Login(email, password, token);
      if s.Err? {
        return Err(s.error);
      }
      session := Some(s.value);
      r := Ok(());
    }

    /** `register`: delegates to the service; the held session never changes. */
    method Register(email: string, password: string, newId: string) returns (r: Result<()>)
      modifies service
      ensures r.Err? <==> EmailRegistered(old(service.GetUsers()), email)
      ensures r.Err? ==> r.error == EmailTakenMessage && service.users == old(service.users)
      ensures r.Ok? ==> service.users == Some(old(service.GetUsers()) + [User(newId, email, password)])
      ensures session == old(session) && service.session == old(service.session)
    {
      r := service.Register(email, password, newId);
    }

    /** `logout`: clears both the stored session and the held one. */
    method Logout()
      modifies this, service
      ensures service.GetSession() == None && session == None
      ensures service.users == old(service.users) && isLoading == old(isLoading)
    {
      service.Logout();
      session := None;
    }
  }
}
