/**
 The values exchanged between the Finance Empire browser client and its
 remote API, with every HTTP call replaced by the outcome it produced.
 */
module Api {

  datatype Option<T> = None | Some(value: T)

  /** The outcome of one `fetch` as the client observes it:
      - `Ok(payload)`: `response.ok` held and the body parsed as `payload`;
      - `NotOk(error)`: a non-2xx response; `error` is the body's `error`
        field when the client reads it (absent when it is missing);
      - `NetworkError`: anything that throws inside the `try` block, that is
        an unreachable server or a body that is not JSON. */
  datatype Reply<T> = Ok(payload: T) | NotOk(error: Option<string>) | NetworkError

  /** A user profile. `gameData` is the saved game, a JSON blob the client
      passes through without interpreting it. */
  datatype User = User(id: string, username: string, gameData: string)

  /** The body of a successful `/register` or `/login` response. The client
      dereferences `data.user.id`, so a body without `user` makes it throw
      half-way through; `user` is optional to model that path. */
  datatype AuthData = AuthData(token: string, user: Option<User>)

  /** One row of `/leaderboard`: rank is the position in the sequence. */
  datatype LeaderboardEntry = LeaderboardEntry(
    userId: string,
    username: string,
    prestigeLevel: int,
    prestigePoints: int,
    totalMoney: int)

  /** The body of `/leaderboard/position`; `position` is null for a user
      outside the ranked list. */
  datatype Position = Position(position: Option<int>, totalPlayers: int)

  /** The two keys of the browser's `localStorage` that the session uses. */
  const TokenKey := "financeEmpireToken"
  const UserIdKey := "financeEmpireUserId"

  /** Messages returned to the login and registration forms. */
  const RegisterFailed := "Ошибка регистрации"
  const LoginFailed := "Ошибка входа"
  const ConnectionFailed := "Ошибка подключения к серверу"

  /** `localStorage.getItem(key)`: null when the key is absent. */
  function GetItem(storage: map<string, string>, key: string): (r: Option<string>)
    ensures r.Some? <==> key in storage
    ensures r.Some? ==> r.value == storage[key]
  {
    if key in storage then Some(storage[key]) else None
  }

  /** JavaScript truthiness of a token held as `string | null`: both null
      and the empty string are falsy. */
  predicate Truthy(token: Option<string>) {
    token.Some? && token.value != ""
  }
}
