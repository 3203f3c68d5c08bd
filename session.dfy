/**
 The session state of the client's `UserSystem` as a value, the transition
 of each of its operations as a function of the state before and the reply
 the server gave, and what runs of those operations can and cannot do.
 */
module Sessions {
  import opened Api

  /** The in-memory `token` and `currentUser` of the `UserSystem`, and the
      page's `localStorage`. */
  datatype Session = Session(token: Option<string>, user: Option<User>, storage: map<string, string>)

  /** What `register` and `login` return to the form that called them. */
  datatype AuthResult = Success(user: User, token: string) | Failure(message: string)

  /** The state the `UserSystem` constructor starts from: no user, and the
      token read back from `localStorage`. */
  function Start(storage: map<string, string>): (s: Session)
    ensures s.user == None && s.storage == storage
    ensures s.token.Some? <==> TokenKey in storage
    ensures s.token.Some? ==> s.token.value == storage[TokenKey]
  {
    Session(GetItem(storage, TokenKey), None, storage)
  }

  /** The guard `if (!this.token)` fails: an authenticated call will be made. */
  predicate SignedIn(s: Session) {
    Truthy(s.token)
  }

  /** The token an authenticated call sends in its `Authorization` header,
      or None when the call returns early and sends nothing. */
  function Bearer(s: Session): (b: Option<string>)
    ensures b.Some? <==> SignedIn(s)
    ensures b.Some? ==> b == s.token && b.value != ""
  {
    if SignedIn(s) then s.token else None
  }

  /** No user profile is held without a token. */
  ghost predicate Inv(s: Session) {
    s.token == None ==> s.user == None
  }

  /** Every `localStorage` key other than the session's two is as before. */
  ghost predicate OnlySessionKeys(before: map<string, string>, after: map<string, string>) {
    forall k :: k != TokenKey && k != UserIdKey ==> GetItem(after, k) == GetItem(before, k)
  }

  /** `data.error || fallback`: a missing or empty error field gives the
      fixed message. */
  function ErrorMessage(error: Option<string>, fallback: string): (m: string)
    ensures Truthy(error) ==> m == error.value
    ensures !Truthy(error) ==> m == fallback
  {
    if Truthy(error) then error.value else fallback
  }

  /** `register` (with `fallback` = RegisterFailed) and `login` (with
      LoginFailed): the new session and the result handed to the form. */
  function Authenticate(s: Session, reply: Reply<AuthData>, fallback: string): (r: (Session, AuthResult))
    ensures r.1.Success? <==> reply.Ok? && reply.payload.user.Some?
    ensures r.1.Success? ==>
      && r.1 == Success(reply.payload.user.value, reply.payload.token)
      && r.0.token == Some(r.1.token) && r.0.user == Some(r.1.user)
      && GetItem(r.0.storage, TokenKey) == Some(r.1.token)
      && GetItem(r.0.storage, UserIdKey) == Some(r.1.user.id)
    ensures !reply.Ok? ==> r.0 == s
    ensures reply.NotOk? ==> r.1 == Failure(ErrorMessage(reply.error, fallback))
    ensures reply.NetworkError? ==> r.1 == Failure(ConnectionFailed)
    // A body without `user` throws at `data.user.id`, after the token was
    // already taken and stored.
    ensures reply.Ok? && reply.payload.user.None? ==>
      && r.1 == Failure(ConnectionFailed)
      && r.0.token == Some(reply.payload.token) && r.0.user == None
      && GetItem(r.0.storage, TokenKey) == Some(reply.payload.token)
      && GetItem(r.0.storage, UserIdKey) == GetItem(s.storage, UserIdKey)
    ensures OnlySessionKeys(s.storage, r.0.storage)
  {
    match reply
    case Ok(data) =>
      var stored := s.storage[TokenKey := data.token];
      (match data.user
       case Some(u) => (Session(Some(data.token), Some(u), stored[UserIdKey := u.id]), Success(u, data.token))
       case None => (Session(Some(data.token), None, stored), Failure(ConnectionFailed)))
    case NotOk(error) => (s, Failure(ErrorMessage(error, fallback)))
    case NetworkError => (s, Failure(ConnectionFailed))
  }

  /** `loadUserData`: the new session and the profile returned (None for
      null). A rejected token is wiped from storage only: the in-memory token
      and user stay. */
  function LoadUserData(s: Session, reply: Reply<User>): (r: (Session, Option<User>))
    ensures r.0.token == s.token
    ensures OnlySessionKeys(s.storage, r.0.storage)
    ensures r.1.Some? <==> SignedIn(s) && reply.Ok?
    ensures r.1.Some? ==> r.1.value == reply.payload && r.0 == s.(user := r.1)
    ensures SignedIn(s) && reply.NotOk? ==>
      && r.0.user == s.user
      && TokenKey !in r.0.storage && UserIdKey !in r.0.storage
    ensures !SignedIn(s) || reply.NetworkError? ==> r.0 == s
  {
    if !SignedIn(s) then (s, None)
    else
      match reply
      case Ok(profile) => (s.(user := Some(profile)), Some(profile))
      case NotOk(_) => (s.(storage := s.storage - {TokenKey, UserIdKey}), None)
      case NetworkError => (s, None)
  }

  /** `saveGameData`: whether the save was acknowledged. It never changes
      the session. */
  function SaveGameData(s: Session, reply: Reply<()>): (saved: bool)
    ensures saved <==> SignedIn(s) && reply.Ok?
  {
    if !SignedIn(s) then false
    else
      match reply
      case Ok(_) => true
      case NotOk(_) => false
      case NetworkError => false
  }

  /** `getUserLeaderboardPosition`: the position record, or None for null.
      It never changes the session. */
  function GetUserLeaderboardPosition(s: Session, reply: Reply<Position>): (r: Option<Position>)
    ensures r.Some? <==> SignedIn(s) && reply.Ok?
    ensures r.Some? ==> r.value == reply.payload
  {
    if !SignedIn(s) then None
    else
      match reply
      case Ok(position) => Some(position)
      case NotOk(_) => None
      case NetworkError => None
  }

  /** `logout`: forget the token and the user, remove both storage keys. */
  function Logout(s: Session): (r: Session)
    ensures r.token == None && r.user == None
    ensures TokenKey !in r.storage && UserIdKey !in r.storage
    ensures OnlySessionKeys(s.storage, r.storage)
  {
    Session(None, None, s.storage - {TokenKey, UserIdKey})
  }

  /** One call on the `UserSystem`, with the reply its request received. */
  datatype Action =
    | Registered(auth: Reply<AuthData>)
    | LoggedIn(auth: Reply<AuthData>)
    | Loaded(profile: Reply<User>)
    | Saved(ack: Reply<()>)
    | PositionAsked(position: Reply<Position>)
    | LoggedOut

  function Step(s: Session, a: Action): Session {
    match a
    case Registered(reply) => Authenticate(s, reply, RegisterFailed).0
    case LoggedIn(reply) => Authenticate(s, reply, LoginFailed).0
    case Loaded(reply) => LoadUserData(s, reply).0
    case Saved(_) => s
    case PositionAsked(_) => s
    case LoggedOut => Logout(s)
  }

  function Run(s: Session, acts: seq<Action>): Session
    decreases |acts|
  {
    if acts == [] then s else Run(Step(s, acts[0]), acts[1..])
  }

  /** The calls that send the token. */
  predicate Authorized(a: Action) {
    a.Loaded? || a.Saved? || a.PositionAsked?
  }

  /** The tokens sent in `Authorization` headers during a run, in order. */
  function Bearers(s: Session, acts: seq<Action>): seq<string>
    decreases |acts|
  {
    if acts == [] then []
    else
      (if Authorized(acts[0]) && Bearer(s).Some? then [Bearer(s).value] else [])
      + Bearers(Step(s, acts[0]), acts[1..])
  }

  /** How many calls of a run would send the token if one is held. */
  function CountAuthorized(acts: seq<Action>): nat
    decreases |acts|
  {
    if acts == [] then 0
    else (if Authorized(acts[0]) then 1 else 0) + CountAuthorized(acts[1..])
  }

  /** A register or login call that got a 2xx reply: the only calls that
      can install a token. */
  predicate AuthAccepted(a: Action) {
    (a.Registered? || a.LoggedIn?) && a.auth.Ok?
  }

  ghost predicate NoAuthAccepted(acts: seq<Action>) {
    forall i :: 0 <= i < |acts| ==> !AuthAccepted(acts[i])
  }

  ghost predicate NoLogout(acts: seq<Action>) {
    forall i :: 0 <= i < |acts| ==> !acts[i].LoggedOut?
  }

  lemma LogoutIdempotent(s: Session)
    ensures Logout(Logout(s)) == Logout(s)
  {
  }

  lemma {:induction false} RunKeepsInv(s: Session, acts: seq<Action>)
    requires Inv(s)
    ensures Inv(Run(s, acts))
    decreases |acts|
  {
    if acts != [] {
      RunKeepsInv(Step(s, acts[0]), acts[1..]);
    }
  }

  /** No call ever touches a `localStorage` key other than the session's two. */
  lemma {:induction false} RunKeepsOtherKeys(s: Session, acts: seq<Action>)
    ensures OnlySessionKeys(s.storage, Run(s, acts).storage)
    decreases |acts|
  {
    if acts != [] {
      var next := Step(s, acts[0]);
      assert OnlySessionKeys(s.storage, next.storage);
      RunKeepsOtherKeys(next, acts[1..]);
    }
  }

  /** Without logout and without an accepted register or login, the
      in-memory token never changes, however often the server rejects it,
      and every authenticated call sends that same token. */
  lemma {:induction false} TokenSurvivesRejection(s: Session, acts: seq<Action>)
    requires NoAuthAccepted(acts) && NoLogout(acts)
    ensures Run(s, acts).token == s.token
    ensures forall i :: 0 <= i < |Bearers(s, acts)| ==> Some(Bearers(s, acts)[i]) == s.token
    ensures SignedIn(s) ==> |Bearers(s, acts)| == CountAuthorized(acts)
    decreases |acts|
  {
    if acts != [] {
      assert !AuthAccepted(acts[0]) && !acts[0].LoggedOut?;
      var next := Step(s, acts[0]);
      assert next.token == s.token;
      TokenSurvivesRejection(next, acts[1..]);
    }
  }

  /** Once the token is null or empty, no call sends a token until a
      register or login is accepted, and a null token stays null. */
  lemma {:induction false} SilentWithoutToken(s: Session, acts: seq<Action>)
    requires !SignedIn(s) && NoAuthAccepted(acts)
    ensures !SignedIn(Run(s, acts))
    ensures s.token == None ==> Run(s, acts).token == None
    ensures Bearers(s, acts) == []
    decreases |acts|
  {
    if acts != [] {
      assert !AuthAccepted(acts[0]);
      SilentWithoutToken(Step(s, acts[0]), acts[1..]);
    }
  }

  /** After `logout`, saves, loads and position queries send nothing until
      the next accepted register or login. */
  lemma NothingSentAfterLogout(s: Session, acts: seq<Action>)
    requires NoAuthAccepted(acts)
    ensures Run(Logout(s), acts).token == None
    ensures Bearers(Logout(s), acts) == []
    ensures forall i :: 0 <= i < |acts| ==> !SaveGameData(Run(Logout(s), acts[..i]), Ok(()))
  {
    SilentWithoutToken(Logout(s), acts);
    forall i | 0 <= i < |acts|
      ensures !SaveGameData(Run(Logout(s), acts[..i]), Ok(()))
    {
      assert NoAuthAccepted(acts[..i]);
      SilentWithoutToken(Logout(s), acts[..i]);
    }
  }

  /** Once both storage keys are gone they stay gone until a register or
      login is accepted. */
  lemma {:induction false} StorageStaysCleared(s: Session, acts: seq<Action>)
    requires TokenKey !in s.storage && UserIdKey !in s.storage
    requires NoAuthAccepted(acts)
    ensures TokenKey !in Run(s, acts).storage && UserIdKey !in Run(s, acts).storage
    decreases |acts|
  {
    if acts != [] {
      assert !AuthAccepted(acts[0]);
      StorageStaysCleared(Step(s, acts[0]), acts[1..]);
    }
  }

  /** A rejected `loadUserData` clears storage but keeps the token, so the
      next `saveGameData` still sends it and succeeds if the server accepts. */
  lemma RejectedLoadStillSendsToken(s: Session, error: Option<string>)
    requires SignedIn(s)
    ensures var after := LoadUserData(s, NotOk(error)).0;
      && TokenKey !in after.storage && UserIdKey !in after.storage
      && after.token == s.token && after.user == s.user
      && Bearer(after) == s.token
      && SaveGameData(after, Ok(()))
  {
  }

  /** A login that succeeds makes the next save carry the new token. */
  lemma LoginThenSave(s: Session, data: AuthData)
    requires data.user.Some? && data.token != ""
    ensures var after := Authenticate(s, Ok(data), LoginFailed).0;
      && Bearer(after) == Some(data.token)
      && SaveGameData(after, Ok(()))
      && !SaveGameData(after, NotOk(None))
  {
  }
}
