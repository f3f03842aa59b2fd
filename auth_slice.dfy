/**
 * The `auth` Redux slice: the signed-in user, the session, the user's profile record and the
 * authenticated flag, changed by three reducers and by the outcome of the `login` thunk.
 */
module AuthSlice {
  import opened Wrappers

  /** `AuthUserDetails` */
  datatype AuthUserDetails = AuthUserDetails(id: string, email: Option<string>, phone: Option<string>, role: Option<string>)

  /** `SessionModel` */
  datatype SessionModel = SessionModel(accessToken: string, expiresAt: Option<int>, expiresIn: int,
                                       refreshToken: string, tokenType: string)

  /** The profile record (`User`) as far as the slice is concerned: it only stores it. */
  datatype UserProfile = UserProfile(id: string, email: string, profile: int, role: Option<string>, name: Option<string>)

  /** What a successful `login` resolves to. */
  datatype LoginPayload = LoginPayload(user: Option<AuthUserDetails>, session: Option<SessionModel>,
                                       userProfile: Option<UserProfile>)

  /** `AuthState` */
  datatype AuthState = AuthState(user: Option<AuthUserDetails>, session: Option<SessionModel>,
                                 userProfile: Option<UserProfile>, isAuthenticated: bool)

  const InitialState: AuthState := AuthState(None, None, None, false)

  class Auth {
    var user: Option<AuthUserDetails>
    var session: Option<SessionModel>
    var userProfile: Option<UserProfile>
    var isAuthenticated: bool

    function State(): AuthState
      reads this
    {
      AuthState(user, session, userProfile, isAuthenticated)
    }

    /** `initialState`: nobody signed in. */
    constructor()
      ensures State() == InitialState
    {
      user := None;
      session := None;
      userProfile := None;
      isAuthenticated := false;
    }

    method SetUser(u: Option<AuthUserDetails>)
      modifies this
      ensures State() == old(State()).(user := u)
    {
      user := u;
    }

    method SetSession(s: Option<SessionModel>)
      modifies this
      ensures State() == old(State()).(session := s)
    {
      session := s;
    }

    /** `logout` clears the user and the session only: the flag and the profile stay. */
    method Logout()
      modifies this
      ensures State() == old(State()).(user := None, session := None)
      ensures isAuthenticated == old(isAuthenticated) && userProfile == old(userProfile)
    {
      user := None;
      session := None;
    }

    /** `login.fulfilled`: the three records from the payload, and the flag set. */
    method LoginFulfilled(payload: LoginPayload)
      modifies this
      ensures State() == AuthState(payload.user, payload.session, payload.userProfile, true)
    {
      user := payload.user;
      session := payload.session;
      userProfile := payload.userProfile;
      isAuthenticated := true;
    }

    /** `login.rejected`: user and session cleared, flag cleared, the profile kept. */
    method LoginRejected()
      modifies this
      ensures State() == old(State()).(user := None, session := None, isAuthenticated := false)
    {
      user := None;
      session := None;
      isAuthenticated := false;
    }
  }

  /** A successful login followed by `logout` leaves the slice saying it is authenticated,
      with no user, no session and the old profile. */
  method LoginThenLogout(payload: LoginPayload) returns (s: AuthState)
    ensures s.isAuthenticated && s.user.None? && s.session.None? && s.userProfile == payload.userProfile
  {
    var auth := new Auth();
    auth.LoginFulfilled(payload);
    auth.Logout();
    s := auth.State();
  }
}
