/**
 The client's leaderboard cache: the globals `leaderboardCache` and
 `leaderboardCacheTime`, refreshed by `renderLeaderboard` when absent or
 older than five minutes, and dropped whenever the leaderboard tab is opened.
 Time is the `Date.now()` reading in milliseconds, passed in as `now`.
 */
module Leaderboard {
  import opened Api

  /** `LEADERBOARD_CACHE_DURATION`: five minutes in milliseconds. */
  const CacheDuration: int := 5 * 60 * 1000

  /** The two globals: the cached rows (null when absent) and when they were
      fetched. */
  datatype Cache = Cache(entries: Option<seq<LeaderboardEntry>>, time: int)

  /** The values the page starts with. */
  const Initial := Cache(None, 0)

  /** The refetch test of `renderLeaderboard`. An empty row list is a truthy
      array, so it counts as present; the age comparison is strict. */
  predicate Stale(c: Cache, now: int) {
    c.entries.None? || now - c.time > CacheDuration
  }

  /** Once stale, a cache stays stale as the clock moves forward, until a
      render refreshes it. */
  lemma StaleStaysStale(c: Cache, now: int, later: int)
    requires Stale(c, now) && now <= later
    ensures Stale(c, later)
  {
  }

  /** `getLeaderboard`: the rows of a 2xx reply, and the empty list for
      anything else. It never throws. */
  function GetLeaderboard(reply: Reply<seq<LeaderboardEntry>>): (rows: seq<LeaderboardEntry>)
    ensures reply.Ok? ==> rows == reply.payload
    ensures !reply.Ok? ==> rows == []
  {
    match reply
    case Ok(payload) => payload
    case NotOk(_) => []
    case NetworkError => []
  }

  /** What one `renderLeaderboard` call leaves behind: the cache, the rows it
      draws (None when the page has no leaderboard table and it returns
      at once), and whether it fetched. */
  datatype Rendered = Rendered(cache: Cache, rows: Option<seq<LeaderboardEntry>>, fetched: bool)

  /** `renderLeaderboard` at time `now`; `reply` is what the fetch would get. */
  function Render(c: Cache, now: int, tablePresent: bool, reply: Reply<seq<LeaderboardEntry>>): (r: Rendered)
    ensures r.fetched <==> tablePresent && Stale(c, now)
    ensures !r.fetched ==> r.cache == c
    ensures r.fetched ==> r.cache == Cache(Some(GetLeaderboard(reply)), now)
    ensures r.rows.Some? <==> tablePresent
    // The `catch` around the fetch is never taken: after drawing, the cache
    // holds exactly the rows drawn and is fresh.
    ensures tablePresent ==> r.cache.entries == r.rows && !Stale(r.cache, now)
  {
    if !tablePresent then Rendered(c, None, false)
    else if Stale(c, now) then
      var rows := GetLeaderboard(reply);
      Rendered(Cache(Some(rows), now), Some(rows), true)
    else Rendered(c, c.entries, false)
  }

  /** Opening the leaderboard tab sets `leaderboardCache` to null. */
  function Invalidate(c: Cache): (r: Cache)
    ensures r.entries == None && r.time == c.time
    ensures forall now :: Stale(r, now)
  {
    c.(entries := None)
  }

  /** One visit of the leaderboard (its table is on the page): a render on
      its own, or a render right after the tab was opened. */
  datatype View =
    | Shown(now: int, reply: Reply<seq<LeaderboardEntry>>)
    | TabOpened(now: int, reply: Reply<seq<LeaderboardEntry>>)

  function Visit(c: Cache, v: View): Rendered {
    match v
    case Shown(now, reply) => Render(c, now, true, reply)
    case TabOpened(now, reply) => Render(Invalidate(c), now, true, reply)
  }

  function RunViews(c: Cache, views: seq<View>): Cache
    decreases |views|
  {
    if views == [] then c else RunViews(Visit(c, views[0]).cache, views[1..])
  }

  /** How many leaderboard requests a run of visits makes. */
  function Fetches(c: Cache, views: seq<View>): nat
    decreases |views|
  {
    if views == [] then 0
    else (if Visit(c, views[0]).fetched then 1 else 0) + Fetches(Visit(c, views[0]).cache, views[1..])
  }

  /** Plain renders no later than five minutes after a fetch (the boundary
      included) make no request and leave the cache as it is. */
  lemma {:induction false} NoFetchWithinTtl(c: Cache, views: seq<View>)
    requires c.entries.Some?
    requires forall i :: 0 <= i < |views| ==> views[i].Shown? && views[i].now - c.time <= CacheDuration
    ensures Fetches(c, views) == 0
    ensures RunViews(c, views) == c
    decreases |views|
  {
    if views != [] {
      assert !Visit(c, views[0]).fetched;
      NoFetchWithinTtl(c, views[1..]);
    }
  }

  /** Plain renders all within one five-minute window make at most one
      request, from whatever cache they start. */
  lemma {:induction false} AtMostOneFetchPerWindow(c: Cache, views: seq<View>, start: int)
    requires forall i :: 0 <= i < |views| ==> views[i].Shown? && start <= views[i].now <= start + CacheDuration
    ensures Fetches(c, views) <= 1
    decreases |views|
  {
    if views != [] {
      var after := Visit(c, views[0]);
      if after.fetched {
        NoFetchWithinTtl(after.cache, views[1..]);
      } else {
        AtMostOneFetchPerWindow(after.cache, views[1..], start);
      }
    }
  }

  /** Opening the tab always fetches, however fresh the cache was. */
  lemma TabOpenAlwaysFetches(c: Cache, now: int, reply: Reply<seq<LeaderboardEntry>>)
    ensures Visit(c, TabOpened(now, reply)).fetched
    ensures Visit(c, TabOpened(now, reply)).cache == Cache(Some(GetLeaderboard(reply)), now)
  {
  }

  /** At exactly five minutes the cached rows are reused; one millisecond
      later they are refetched. */
  lemma TtlBoundary(rows: seq<LeaderboardEntry>, time: int, reply: Reply<seq<LeaderboardEntry>>)
    ensures !Render(Cache(Some(rows), time), time + CacheDuration, true, reply).fetched
    ensures Render(Cache(Some(rows), time), time + CacheDuration + 1, true, reply).fetched
  {
  }

  /** A failed refresh stores the empty list with a new timestamp, so for the
      next five minutes the leaderboard is drawn empty and never retried. */
  lemma FailedFetchPinsEmptyList(c: Cache, now: int, reply: Reply<seq<LeaderboardEntry>>, views: seq<View>)
    requires Stale(c, now) && !reply.Ok?
    requires forall i :: 0 <= i < |views| ==> views[i].Shown? && views[i].now - now <= CacheDuration
    ensures Render(c, now, true, reply).cache == Cache(Some([]), now)
    ensures Fetches(Cache(Some([]), now), views) == 0
    ensures RunViews(Cache(Some([]), now), views) == Cache(Some([]), now)
  {
    NoFetchWithinTtl(Cache(Some([]), now), views);
  }

  /** Scenario: two renders a second apart fetch once; a third
      one 301 seconds after the first fetches again. */
  lemma QuickRendersThenExpiry(t: int, r1: Reply<seq<LeaderboardEntry>>, r2: Reply<seq<LeaderboardEntry>>, r3: Reply<seq<LeaderboardEntry>>)
    ensures Fetches(Initial, [Shown(t, r1), Shown(t + 1000, r2)]) == 1
    ensures Fetches(Initial, [Shown(t, r1), Shown(t + 1000, r2), Shown(t + 301000, r3)]) == 2
  {
    var c1 := Visit(Initial, Shown(t, r1)).cache;
    assert Fetches(c1, [Shown(t + 1000, r2)]) == 0 by {
      NoFetchWithinTtl(c1, [Shown(t + 1000, r2)]);
    }
    var views := [Shown(t + 1000, r2), Shown(t + 301000, r3)];
    assert views[1..] == [Shown(t + 301000, r3)];
    assert c1 == Cache(Some(GetLeaderboard(r1)), t);
    assert Visit(c1, views[0]).cache == c1;
    var c2 := Visit(c1, views[1]).cache;
    assert Visit(c1, views[1]).fetched;
    assert Fetches(c1, views[1..]) == 1 + Fetches(c2, []);
    assert Fetches(c1, views) == 1;
    assert [Shown(t, r1), Shown(t + 1000, r2), Shown(t + 301000, r3)][1..] == views;
    assert [Shown(t, r1), Shown(t + 1000, r2)][1..] == [Shown(t + 1000, r2)];
  }

  /** The two globals, updated in place. */
  class LeaderboardCache {
    var entries: Option<seq<LeaderboardEntry>>
    var time: int

    ghost function State(): Cache
      reads this
    {
      Cache(entries, time)
    }

    constructor ()
      ensures State() == Initial
    {
      entries := None;
      time := 0;
    }

    /** The cache part of `renderLeaderboard`. */
    method RenderLeaderboard(now: int, tablePresent: bool, reply: Reply<seq<LeaderboardEntry>>)
      returns (rows: Option<seq<LeaderboardEntry>>, fetched: bool)
      modifies this
      ensures Rendered(State(), rows, fetched) == Render(old(State()), now, tablePresent, reply)
    {
      if !tablePresent {
        return None, false;
      }
      fetched := entries.None? || now - time > CacheDuration;
      if fetched {
        var latest := GetLeaderboard(reply);
        entries := Some(latest);
        time := now;
      }
      rows := entries;
    }

    /** The tab handler of `initTabs` for the leaderboard tab: drop the cache,
        then render. */
    method OpenLeaderboardTab(now: int, tablePresent: bool, reply: Reply<seq<LeaderboardEntry>>)
      returns (rows: Option<seq<LeaderboardEntry>>, fetched: bool)
      modifies this
      ensures Rendered(State(), rows, fetched) == Render(Invalidate(old(State())), now, tablePresent, reply)
      ensures fetched <==> tablePresent
    {
      entries := None;
      rows, fetched := RenderLeaderboard(now, tablePresent, reply);
    }
  }
}
