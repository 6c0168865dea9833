/**
 * The tile service: derives today's tile state from the stored week, and
 * seeds the store with the sample week once per request when today's list
 * is empty. The day of the week is a parameter instead of the device clock,
 * and each "latest value" of the state stream is a fresh read of the store.
 */
module TileService {
  import opened Wrappers
  import opened Days
  import opened MenuRepo
  import opened TileRenderer

  /** `getTodayMenu`: the list stored under today's key, or the empty list when there is none. */
  function GetTodayMenu(menus: WeeklyMenu, today: Day): (items: seq<MenuItem>)
    ensures LookupKey(today) in menus ==> items == menus[LookupKey(today)]
    ensures LookupKey(today) !in menus ==> items == []
  {
    var key := LookupKey(today);
    if key in menus then menus[key] else []
  }

  /** The tile state the state stream maps a stored week to. */
  function StateOf(menus: WeeklyMenu, today: Day): LunchMenuTileState
  {
    LunchMenuTileState(GetTodayMenu(menus, today))
  }

  /** The state depends on the stored week only through today's entry. */
  lemma StateOnlyReadsToday(m1: WeeklyMenu, m2: WeeklyMenu, today: Day)
    requires LookupKey(today) in m1 <==> LookupKey(today) in m2
    requires LookupKey(today) in m1 ==> m1[LookupKey(today)] == m2[LookupKey(today)]
    ensures StateOf(m1, today) == StateOf(m2, today)
  {
  }

  /** What one `latestTileState` call returns, and whether it seeded the store. */
  datatype Outcome = Outcome(state: LunchMenuTileState, seeded: bool)

  /**
   * `latestTileState` on a preferences snapshot: read; if today's list is
   * empty, write `seed` (the sample week) and read once more; return the
   * last read.
   */
  function LatestTileStateSpec(p: Preferences, today: Day, seed: WeeklyMenu): (o: Outcome)
    ensures o.seeded <==> GetTodayMenu(Read(p), today) == []
    ensures !o.seeded ==> o.state == StateOf(Read(p), today)
    ensures o.seeded ==> o.state == StateOf(seed, today)
  {
    var first := StateOf(Read(p), today);
    if first.todayMenu != [] then Outcome(first, false)
    else Outcome(StateOf(Read(Write(p, seed)), today), true)
  }

  /** The snapshot a `latestTileState` call leaves behind. */
  function PrefsAfter(p: Preferences, today: Day, seed: WeeklyMenu): (p': Preferences)
    ensures p' == p || p' == Write(p, seed)
    ensures p' == Write(p, seed) <== LatestTileStateSpec(p, today, seed).seeded
  {
    if LatestTileStateSpec(p, today, seed).seeded then Write(p, seed) else p
  }

  /** When today has dishes, nothing is written and the first read is returned. */
  lemma NoSeedWhenTodayHasDishes(p: Preferences, today: Day, seed: WeeklyMenu)
    requires GetTodayMenu(Read(p), today) != []
    ensures !LatestTileStateSpec(p, today, seed).seeded
    ensures LatestTileStateSpec(p, today, seed).state.todayMenu == Read(p)[LookupKey(today)]
    ensures PrefsAfter(p, today, seed) == p
  {
  }

  /** On a weekday with nothing stored for it, the result is that day of the sample week. */
  lemma SeedOnWeekday(p: Preferences, today: Day, seed: WeeklyMenu)
    requires SeedShape(seed)
    requires IsWeekday(today)
    requires GetTodayMenu(Read(p), today) == []
    ensures LookupKey(today) in seed
    ensures LatestTileStateSpec(p, today, seed).state.todayMenu == seed[LookupKey(today)]
    ensures SampleDay(LatestTileStateSpec(p, today, seed).state.todayMenu)
  {
    SampleKeysAreWeekdays(today);
  }

  /** On a weekday the tile never shows an empty list. */
  lemma WeekdayNeverEmpty(p: Preferences, today: Day, seed: WeeklyMenu)
    requires SeedShape(seed)
    requires IsWeekday(today)
    ensures LatestTileStateSpec(p, today, seed).state.todayMenu != []
  {
    if GetTodayMenu(Read(p), today) == [] {
      SeedOnWeekday(p, today, seed);
    }
  }

  /**
   * On a Saturday or Sunday with nothing stored for it, the store is
   * overwritten with the sample week, yet the result is still empty.
   */
  lemma SeedOnWeekend(p: Preferences, today: Day, seed: WeeklyMenu)
    requires SeedShape(seed)
    requires !IsWeekday(today)
    requires GetTodayMenu(Read(p), today) == []
    ensures LatestTileStateSpec(p, today, seed).seeded
    ensures Read(PrefsAfter(p, today, seed)) == seed
    ensures LatestTileStateSpec(p, today, seed).state.todayMenu == []
  {
    SampleKeysAreWeekdays(today);
  }

  /** ... and so every weekend request after it seeds again. */
  lemma WeekendReseedsEveryRequest(p: Preferences, today: Day, seed: WeeklyMenu)
    requires SeedShape(seed)
    requires !IsWeekday(today)
    requires GetTodayMenu(Read(p), today) == []
    ensures LatestTileStateSpec(PrefsAfter(p, today, seed), today, seed).seeded
  {
    SeedOnWeekend(p, today, seed);
  }

  /** On a weekday a seed takes: the next request finds dishes and writes nothing. */
  lemma WeekdaySeedsAtMostOnce(p: Preferences, today: Day, seed: WeeklyMenu)
    requires SeedShape(seed)
    requires IsWeekday(today)
    ensures !LatestTileStateSpec(PrefsAfter(p, today, seed), today, seed).seeded
  {
    if GetTodayMenu(Read(p), today) == [] {
      SeedOnWeekday(p, today, seed);
    } else {
      NoSeedWhenTodayHasDishes(p, today, seed);
    }
  }

  /**
   * The emptiness test looks only at today; a seed then throws away every
   * other day the store held, because the write replaces the whole week. Keys
   * other than the menu slot are untouched.
   */
  lemma SeedDiscardsOtherDays(p: Preferences, today: Day, seed: WeeklyMenu, k: string)
    requires GetTodayMenu(Read(p), today) == []
    requires k in Read(p) && k != LookupKey(today)
    requires k !in seed || Read(p)[k] != seed[k]
    ensures LatestTileStateSpec(p, today, seed).seeded
    ensures k !in Read(PrefsAfter(p, today, seed)) || Read(PrefsAfter(p, today, seed))[k] != Read(p)[k]
    ensures forall key :: key in p && key != MenusKey ==> PrefsAfter(p, today, seed)[key] == p[key]
  {
  }

  /** With a stored Monday of one soup, a Monday request shows that soup and writes nothing. */
  lemma SoupOnMonday(p: Preferences, seed: WeeklyMenu)
    requires Read(p) == map["monday" := [MenuItem("Soup", price := 950)]]
    ensures LatestTileStateSpec(p, Monday, seed) == Outcome(LunchMenuTileState([MenuItem("Soup", None, 950)]), false)
  {
  }

  /** With only Monday stored, a Tuesday request seeds and shows the sample Tuesday. */
  lemma MissingDaySeeds(p: Preferences, monday: seq<MenuItem>, seed: WeeklyMenu)
    requires SeedShape(seed)
    requires Read(p) == map["monday" := monday]
    ensures LatestTileStateSpec(p, Tuesday, seed).seeded
    ensures LatestTileStateSpec(p, Tuesday, seed).state.todayMenu == seed["tuesday"]
    ensures |LatestTileStateSpec(p, Tuesday, seed).state.todayMenu| == 4
    ensures Read(PrefsAfter(p, Tuesday, seed)) == seed
  {
    assert "tuesday" !in Read(p);
    assert "tuesday" in seed;
  }

  /** `LunchMenuTileService` over its repository. */
  class LunchMenuTileService {
    const repo: LunchMenuRepo

    constructor (repo: LunchMenuRepo)
      ensures this.repo == repo
    {
      this.repo := repo;
    }

    /** The latest value of the tile state stream: today's slice of the stored week. */
    function TileState(today: Day): LunchMenuTileState
      reads this, repo
    {
      StateOf(repo.GetLunchMenus(), today)
    }

    /** `refreshData`: store the sample week. */
    method RefreshData()
      modifies repo
      ensures repo.prefs == Write(old(repo.prefs), repo.sampleLunchMenus)
      ensures repo.writes == old(repo.writes) + [repo.sampleLunchMenus]
    {
      repo.UpdateLunchMenus(repo.sampleLunchMenus);
    }

    /**
     * `latestTileState`: at most one write per call, and any write is the
     * sample week; the result and the new store are those of the spec.
     */
    method LatestTileState(today: Day) returns (state: LunchMenuTileState)
      modifies repo
      ensures state == LatestTileStateSpec(old(repo.prefs), today, repo.sampleLunchMenus).state
      ensures repo.prefs == PrefsAfter(old(repo.prefs), today, repo.sampleLunchMenus)
      ensures repo.writes
           == old(repo.writes) + if old(TileState(today)).todayMenu == [] then [repo.sampleLunchMenus] else []
      ensures |repo.writes| <= |old(repo.writes)| + 1
    {
      var tileState := TileState(today);
      if tileState.todayMenu == [] {
        RefreshData();
        tileState := TileState(today);
      }
      state := tileState;
    }

    /** `tileRequest`: the layout of the latest state. */
    method TileRequest(today: Day) returns (layout: TileLayout)
      modifies repo
      ensures layout == LunchMenuTileLayout(LatestTileStateSpec(old(repo.prefs), today, repo.sampleLunchMenus).state, today)
      ensures repo.prefs == PrefsAfter(old(repo.prefs), today, repo.sampleLunchMenus)
      ensures repo.writes
           == old(repo.writes) + if old(TileState(today)).todayMenu == [] then [repo.sampleLunchMenus] else []
      ensures |repo.writes| <= |old(repo.writes)| + 1
    {
      var state := LatestTileState(today);
      layout := LunchMenuTileLayout(state, today);
    }
  }
}
