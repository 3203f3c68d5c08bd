/**
 The client's `UserSystem` object: its fields are assigned in place by each
 call, and each call is proved to make exactly the transition the `Session`
 module gives for it.
 */
module Users {
  import opened Api
  import opened Sessions

  class UserSystem {
    var token: Option<string>
    var currentUser: Option<User>
    /** The page's `localStorage`, which the object reads and writes. */
    var storage: map<string, string>

    ghost function State(): Session
      reads this
    {
      Session(token, currentUser, storage)
    }

    constructor (initialStorage: map<string, string>)
      ensures State() == Start(initialStorage)
      ensures Inv(State())
    {
      currentUser := None;
      token := GetItem(initialStorage, TokenKey);
      storage := initialStorage;
    }

    /** `register` and `login` differ only in their fallback message. */
    method Authenticate(reply: Reply<AuthData>, fallback: string) returns (result: AuthResult)
      modifies this
      ensures (State(), result) == Sessions.Authenticate(old(State()), reply, fallback)
    {
      match reply {
        case Ok(data) =>
          token := Some(data.token);
          currentUser := data.user;
          storage := storage[TokenKey := data.token];
          if data.user.None? {
            return Failure(ConnectionFailed);
          }
          storage := storage[UserIdKey := data.user.value.id];
          result := Success(data.user.value, data.token);
        case NotOk(error) =>
          result := Failure(ErrorMessage(error, fallback));
        case NetworkError =>
          result := Failure(ConnectionFailed);
      }
    }

    method Register(reply: Reply<AuthData>) returns (result: AuthResult)
      modifies this
      ensures (State(), result) == Sessions.Authenticate(old(State()), reply, RegisterFailed)
    {
      result := Authenticate(reply, RegisterFailed);
    }

    method Login(reply: Reply<AuthData>) returns (result: AuthResult)
      modifies this
      ensures (State(), result) == Sessions.Authenticate(old(State()), reply, LoginFailed)
    {
      result := Authenticate(reply, LoginFailed);
    }

    /** `loadUserData`; `sent` is the token of the request, None when the
        call returned before making one. */
    method LoadUserData(reply: Reply<User>) returns (profile: Option<User>, sent: Option<string>)
      modifies this
      ensures (State(), profile) == Sessions.LoadUserData(old(State()), reply)
      ensures sent == Bearer(old(State()))
      ensures token == old(token)
    {
      if !Truthy(token) {
        return None, None;
      }
      sent := token;
      match reply {
        case Ok(data) =>
          currentUser := Some(data);
          profile := Some(data);
        case NotOk(_) =>
          storage := storage - {TokenKey, UserIdKey};
          profile := None;
        case NetworkError =>
          profile := None;
      }
    }

    /** `saveGameData`: changes nothing; returns the acknowledgement and the
        token sent (None when no request was made). */
    method SaveGameData(reply: Reply<()>) returns (saved: bool, sent: Option<string>)
      ensures saved <==> Truthy(token) && reply.Ok?
      ensures sent.Some? <==> Truthy(token)
      ensures sent.Some? ==> sent == token
      ensures saved == Sessions.SaveGameData(State(), reply)
    {
      if !Truthy(token) {
        return false, None;
      }
      sent := token;
      match reply {
        case Ok(_) => saved := true;
        case NotOk(_) => saved := false;
        case NetworkError => saved := false;
      }
    }

    /** `getUserLeaderboardPosition`: changes nothing. */
    method GetUserLeaderboardPosition(reply: Reply<Position>) returns (position: Option<Position>, sent: Option<string>)
      ensures position.Some? <==> Truthy(token) && reply.Ok?
      ensures position.Some? ==> position.value == reply.payload
      ensures sent.Some? <==> Truthy(token)
      ensures sent.Some? ==> sent == token
      ensures position == Sessions.GetUserLeaderboardPosition(State(), reply)
    {
      if !Truthy(token) {
        return None, None;
      }
      sent := token;
      match reply {
        case Ok(data) => position := Some(data);
        case NotOk(_) => position := None;
        case NetworkError => position := None;
      }
    }

    method Logout()
      modifies this
      ensures State() == Sessions.Logout(old(State()))
    {
      token := None;
      currentUser := None;
      storage := storage - {TokenKey, UserIdKey};
    }
  }

  /** Scenario: a page opens with a stored token the server now rejects.
      The storage keys go, the object keeps the token, and the next save
      still sends it; after logout a save sends nothing. */
  method RejectedTokenScenario(stored: string)
    returns (keysCleared: bool, savedAfterRejection: bool, sentAfterRejection: Option<string>,
             savedAfterLogout: bool, sentAfterLogout: Option<string>)
    requires stored != ""
    ensures keysCleared
    ensures savedAfterRejection && sentAfterRejection == Some(stored)
    ensures !savedAfterLogout && sentAfterLogout == None
  {
    var users := new UserSystem(map[TokenKey := stored, UserIdKey := "u1"]);
    var profile, sent := users.LoadUserData(NotOk(None));
    keysCleared := TokenKey !in users.storage && UserIdKey !in users.storage;
    savedAfterRejection, sentAfterRejection := users.SaveGameData(Ok(()));
    users.Logout();
    savedAfterLogout, sentAfterLogout := users.SaveGameData(Ok(()));
  }
}
