# Finance Empire client: session and leaderboard cache

This project models the client-side state of the Finance Empire idle game,
as held by `server.js`. Every HTTP call is replaced by the outcome it had,
passed in as a `Reply<T>`:

- `Ok(payload)`: a 2xx response whose body parsed;
- `NotOk(error)`: a non-2xx response, carrying the body's optional `error` field;
- `NetworkError`: anything the call's `try` block catches.

`Date.now()` becomes an `int` parameter `now`.

Two parts of the client are modelled.

- **Session** (`UserSystem`). The state is the in-memory `token` and
  `currentUser`, plus the page's `localStorage` as a `map<string, string>`.
  The session uses two keys of it: `financeEmpireToken` and
  `financeEmpireUserId`.
  - `Sessions` gives each operation as a function from the old state and
    the reply to the new state and the result. It also proves what runs of
    operations do.
  - `Users.UserSystem` is the object itself. Its methods assign the fields
    in place, and each one is proved to make exactly the transition its
    function gives.
- **Leaderboard cache**. These are the globals `leaderboardCache` and
  `leaderboardCacheTime`.
  - `renderLeaderboard` refetches when the cache is null or older than
    `LEADERBOARD_CACHE_DURATION` (300000 ms).
  - Opening the leaderboard tab sets the cache to null.
  - `Leaderboard` gives the rule as functions, lemmas about runs of renders,
    and the class `LeaderboardCache` that updates the two globals in place.

JavaScript truthiness is written out:

- `!this.token` holds for null and for `""`. This is `Truthy` and `SignedIn`.
- `data.error || fallback` uses the fallback for a missing or empty error.
- An empty leaderboard array is truthy, so an empty cached list counts as present.

Where the code differs from what one might expect, the model follows the code:

- A non-ok `/user` reply makes `loadUserData` remove both storage keys. It
  does not reset `this.token` or `this.currentUser`. Later
  `saveGameData` and `getUserLeaderboardPosition` calls still send the old
  token (`TokenSurvivesRejection`, `RejectedLoadStillSendsToken`).
- `getLeaderboard` never throws. A failed fetch returns `[]`, so the cache
  stores `[]` with a fresh timestamp, and the `catch` in `renderLeaderboard`
  is never reached (`Render`, `FailedFetchPinsEmptyList`). A failed fetch
  still restamps the cache.
- The cache is reused while `now - time <= 300000`. Only a strictly greater
  age triggers a refetch (`TtlBoundary`).
- `register` and `login` store the token before they read `data.user.id`. A
  successful body without `user` therefore throws after the token is already
  held and stored. The caller gets the connectivity message. The model keeps
  this partial update.

## Model

| member | source | states |
|---|---|---|
| Api.GetItem | server.js:8 | `localStorage.getItem` gives the stored value, or null when the key is absent |
| Api.Truthy | server.js:68 | the `!this.token` guard and the fallback when `data.error` is missing: a null or empty string is falsy |
| Sessions.Start | server.js:6-9 | the constructor holds no user and reads the token back from `financeEmpireToken` (absent key gives null) |
| Users.UserSystem.constructor | server.js:6-9 | the new object is in the `Start` state for the given storage, and a null token comes with a null user |
| Sessions.Authenticate | server.js:11-64 | success iff 2xx with a user; then token, user and both storage keys are the reply's; a non-2xx or thrown call leaves the session unchanged, with `data.error` or the fallback / connectivity message; a body without `user` installs and stores the token but fails; no other storage key changes |
| Users.UserSystem.Register | server.js:11-37 | `register` makes the `Authenticate` transition with the registration fallback message |
| Users.UserSystem.Login | server.js:39-65 | `login` makes the `Authenticate` transition with the login fallback message |
| Users.UserSystem.Authenticate | server.js:23-36 | the shared body of `register` and `login` assigns the fields exactly as `Sessions.Authenticate` says |
| Sessions.ErrorMessage | server.js:24 | the server's error text when it is non-empty, the fixed message otherwise |
| Sessions.LoadUserData | server.js:67-92 | the token never changes; a profile is returned iff signed in and 2xx, and becomes `currentUser`; a non-2xx reply removes both storage keys but keeps token and user; no token or a thrown call changes nothing |
| Users.UserSystem.LoadUserData | server.js:67-92 | makes the `LoadUserData` transition, sends the held token only when it is truthy, and keeps `token` |
| Sessions.SaveGameData | server.js:94-112 | a save is acknowledged iff a truthy token is held and the reply is 2xx |
| Users.UserSystem.SaveGameData | server.js:94-112 | returns `response.ok` when a truthy token is held, false otherwise; sends exactly the held token, or nothing without one; changes nothing |
| Sessions.Bearer | server.js:68-146 | an authenticated call sends the held token iff it is truthy, and sends nothing otherwise |
| Sessions.GetUserLeaderboardPosition | server.js:136-154 | the position record is returned iff signed in and 2xx, otherwise null |
| Users.UserSystem.GetUserLeaderboardPosition | server.js:136-154 | returns the reply's record iff a truthy token is held and the reply is 2xx, as `Sessions.GetUserLeaderboardPosition` says; sends the held token or nothing; changes nothing |
| Sessions.Logout | server.js:156-161 | token and user become null, both storage keys are removed, every other key is kept |
| Users.UserSystem.Logout | server.js:156-161 | the object makes the `Logout` transition |
| Sessions.LogoutIdempotent | server.js:156-161 | logging out twice is the same as logging out once |
| Sessions.RunKeepsInv | server.js:5-161 | over any run of calls, a null token never comes with a held user |
| Sessions.RunKeepsOtherKeys | server.js:11-161 | no run of calls touches a storage key other than the session's two |
| Sessions.TokenSurvivesRejection | server.js:67-112 | without logout or an accepted register/login, the in-memory token never changes, whatever the server rejects; every token sent is that token, and when it is truthy every load, save and position call sends it |
| Sessions.SilentWithoutToken | server.js:94-112 | with a null or empty token and no accepted register/login, the token stays falsy (a null one stays null) and no call sends a token |
| Sessions.NothingSentAfterLogout | server.js:156-161 | after logout, until a register/login is accepted, nothing sends a token and every save returns false |
| Sessions.StorageStaysCleared | server.js:79-83 | once both storage keys are gone they stay gone until a register/login is accepted |
| Sessions.RejectedLoadStillSendsToken | server.js:79-107 | after a rejected `loadUserData` the storage keys are gone, token and user remain, and the next save sends the old token and succeeds on a 2xx reply |
| Sessions.LoginThenSave | server.js:55-107 | after a successful login with a non-empty token, saves carry that token and return the reply's ok flag |
| Users.RejectedTokenScenario | server.js:79-105 | on the object: a stored token rejected by `/user` clears both keys, the next save still sends that token and succeeds on 2xx, and after logout a save sends nothing and fails |
| Leaderboard.Stale | server.js:308 | the refetch test: the cache is null, or strictly older than 300000 ms |
| Leaderboard.StaleStaysStale | server.js:308 | a stale cache stays stale at every later time |
| Leaderboard.GetLeaderboard | server.js:114-123 | the rows of a 2xx reply, the empty list on a non-2xx reply or a thrown call |
| Leaderboard.Render | server.js:302-316 | fetches iff the table exists and the cache is null or older than 300000 ms; a fetch stores its rows with `now` as time, otherwise the cache is kept; with a table, the rows drawn are the cached ones and the cache is fresh afterwards |
| Leaderboard.Invalidate | server.js:442-445 | the cache becomes null, so it is stale at every time |
| Leaderboard.NoFetchWithinTtl | server.js:307-316 | renders no later than 300000 ms after the cached time make no request and keep the cache |
| Leaderboard.AtMostOneFetchPerWindow | server.js:307-316 | renders whose times all lie in one 300000 ms window make at most one request, from any starting cache |
| Leaderboard.TabOpenAlwaysFetches | server.js:442-445 | opening the tab always fetches and stores the fetched rows with `now` as time |
| Leaderboard.TtlBoundary | server.js:308 | at exactly 300000 ms the cached rows are reused; one millisecond later they are refetched |
| Leaderboard.FailedFetchPinsEmptyList | server.js:308-311 | a failed refresh stores the empty list with the new time, and renders for the next 300000 ms neither fetch nor change it |
| Leaderboard.QuickRendersThenExpiry | server.js:307-316 | from the page's initial cache, two renders a second apart fetch once, and a third 301 s later fetches again |
| Leaderboard.LeaderboardCache.constructor | server.js:170-171 | the globals start as null and 0 |
| Leaderboard.LeaderboardCache.RenderLeaderboard | server.js:302-316 | updates the two globals in place exactly as `Render` says |
| Leaderboard.LeaderboardCache.OpenLeaderboardTab | server.js:442-445 | sets the cache to null, then renders, so it fetches iff the table exists |

## Left out

- HTTP, JSON and URLs are not modelled. That covers `fetch`, headers,
  `response.json()` and `API_BASE_URL`. Each call is represented only by its
  outcome. For this reason the request arguments are not parameters of the
  model: `username`, `password`, `email`, `gameData` and `limit`.
- A body that parses to something other than the expected record is not
  modelled. Examples are a `/user` body that is JSON `null` and a token
  field that is missing. Tokens and user ids are strings.
- `getLeaderboardTop` (server.js:125-134) is not modelled. It is not part of
  the session or cache state, and it has the same shape as `getLeaderboard`.
- Asynchrony is not modelled. Each call runs to completion before the next
  one starts. Interleavings are not covered, such as a `renderLeaderboard`
  that is not awaited or a late reply that arrives after `logout`.
- Timers and page-exit hooks are left out: `startAutoSave`, its
  `setInterval`, `beforeunload`, and the `clearInterval` in the logout
  handler. The 60-second `checkConnection` probe is left out too.
- DOM work is left out: `initAuth`'s form wiring, `updateDisplay`, the table
  markup in `renderLeaderboard`, and the user-position row that it draws
  (server.js:318-395). A table that is missing is a boolean input.
- `calculateTotalMoneyForLeaderboard` is left out. It is floating-point
  arithmetic over upgrade data that this file does not define.
- `console.error` logging is left out.
