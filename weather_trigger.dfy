/**
 * The weather trigger: fetches the current weather code (at most one network
 * request per ten minutes, a cached value in between), maps it to a weather
 * state, and emits a change for every output whose last applied state differs
 * and whose weather map names an image for the state.
 */
module Weather {
  import opened Types
  import opened Resolver
  import opened Trigger
  import State
  import Config

  /** Seconds between two evaluations, as the code returns it. */
  const WeatherInterval: nat := 36000
  /** A cached state younger than this many seconds is served without a request. */
  const CacheWindow: nat := 600

  datatype WeatherState = Clear | Cloudy | Rainy | Snowy | Stormy

  const CloudyCodes: set<int> := {1, 2, 3, 51, 53, 55, 56, 57}
  const RainyCodes: set<int> := {61, 63, 65, 66, 67, 80, 81, 82}
  const SnowyCodes: set<int> := {71, 73, 75, 77, 85, 86}
  const StormyCodes: set<int> := {95, 96, 99}

  /** `WeatherState::from_code`, mapping the WMO weather code. */
  function FromCode(code: int): WeatherState {
    if code == 0 then Clear
    else if code in CloudyCodes then Cloudy
    else if code in RainyCodes then Rainy
    else if code in SnowyCodes then Snowy
    else if code in StormyCodes then Stormy
    else Cloudy
  }

  /** Each state is reached exactly from its code list; every unlisted code reads as cloudy. */
  lemma FromCodeClassifies(code: int)
    ensures FromCode(code) == Clear <==> code == 0
    ensures FromCode(code) == Rainy <==> code in RainyCodes
    ensures FromCode(code) == Snowy <==> code in SnowyCodes
    ensures FromCode(code) == Stormy <==> code in StormyCodes
    ensures FromCode(code) == Cloudy <==>
      code != 0 && code !in RainyCodes && code !in SnowyCodes && code !in StormyCodes
  {
  }

  /** `WeatherState::config_key`. */
  function ConfigKey(s: WeatherState): string {
    match s
    case Clear => "sunny"
    case Cloudy => "cloudy"
    case Rainy => "raining"
    case Snowy => "snowing"
    case Stormy => "lighting"
  }

  /**
   * The keys tried, in order, for an image: the state's own key, then the
   * accepted variants (`"ligthing"` is a misspelling the code accepts).
   */
  function Candidates(s: WeatherState): (keys: seq<string>)
    ensures |keys| >= 1 && keys[0] == ConfigKey(s)
  {
    match s
    case Clear => ["sunny", "clear"]
    case Cloudy => ["cloudy"]
    case Rainy => ["raining", "rainy"]
    case Snowy => ["snowing"]
    case Stormy => ["lighting", "stormy", "ligthing"]
  }

  /** No key is tried for two different states, so an entry serves one state only. */
  lemma CandidatesDisjoint(s: WeatherState, t: WeatherState, k: string)
    requires k in Candidates(s) && k in Candidates(t)
    ensures s == t
  {
  }

  /** The value of the first key of `keys` present in `m`. */
  function FirstPresent(keys: seq<string>, m: map<string, string>): (r: Option<string>)
    ensures r.None? <==> forall i :: 0 <= i < |keys| ==> keys[i] !in m
    ensures r.Some? ==> exists i :: (0 <= i < |keys| && keys[i] in m && r.value == m[keys[i]]
      && forall j :: 0 <= j < i ==> keys[j] !in m)
  {
    if keys == [] then None
    else if keys[0] in m then Some(m[keys[0]])
    else
      var rest := FirstPresent(keys[1..], m);
      assert forall i :: 1 <= i < |keys| ==> keys[i] == keys[1..][i - 1];
      if rest.Some? then
        var i :| 0 <= i < |keys[1..]| && keys[1..][i] in m && rest.value == m[keys[1..][i]]
          && forall j :: 0 <= j < i ==> keys[1..][j] !in m;
        assert keys[i + 1] in m && forall j :: 0 <= j < i + 1 ==> keys[j] !in m;
        rest
      else rest
  }

  /** The image for a state in one output's weather map, if any. */
  function ImageFor(s: WeatherState, weather: map<string, string>): Option<string> {
    FirstPresent(Candidates(s), weather)
  }

  /** The lookup spelled out as the code does it: the state's key, then a per-state fallback. */
  lemma ImageForFallbacks(s: WeatherState, weather: map<string, string>)
    ensures ImageFor(s, weather) ==
      if ConfigKey(s) in weather then Some(weather[ConfigKey(s)])
      else match s
        case Clear => Get(weather, "clear")
        case Rainy => Get(weather, "rainy")
        case Stormy => if "stormy" in weather then Some(weather["stormy"]) else Get(weather, "ligthing")
        case _ => None
  {
    var keys := Candidates(s);
    if ConfigKey(s) !in weather {
      assert ImageFor(s, weather) == FirstPresent(keys[1..], weather);
      match s
      case Clear =>
        assert keys[1..] == ["clear"] && keys[1..][1..] == [];
      case Rainy =>
        assert keys[1..] == ["rainy"] && keys[1..][1..] == [];
      case Stormy =>
        assert keys[1..] == ["stormy", "ligthing"] && keys[1..][1..] == ["ligthing"] && keys[1..][1..][1..] == [];
      case Cloudy =>
      case Snowy =>
    }
  }

  /** The request/cache memory of the trigger. */
  datatype Cache = Cache(lastApiCall: Option<int>, cachedWeather: Option<WeatherState>)

  /** How the HTTP request to the forecast service ended: an error, or a decoded weather code. */
  datatype ApiOutcome = ApiFailed(message: string) | ApiOk(weathercode: int)

  /**
   * One `fetch_weather`: served from the cache, failed, or fetched with the
   * cache refreshed. `SelfLocked`: the call re-locks the application state
   * that its caller already holds, so it never returns.
   */
  datatype Fetch = Fetched(state: WeatherState, cache: Cache) | FetchFailed(error: string) | SelfLocked

  predicate CacheHit(cache: Cache, now: int) {
    cache.lastApiCall.Some? && now - cache.lastApiCall.value < CacheWindow && cache.cachedWeather.Some?
  }

  /**
   * `fetch_weather` at time `now` (seconds). `lockHeld` says whether the
   * caller already holds the application-state lock; `weather` is the
   * configured weather map read under that lock; `api` is what the request
   * would return.
   */
  function FetchStep(cache: Cache, now: int, lockHeld: bool,
                     weather: Option<map<string, Config.WeatherConfig>>, api: ApiOutcome): (f: Fetch)
    ensures CacheHit(cache, now) ==> f == Fetched(cache.cachedWeather.value, cache)
    ensures !CacheHit(cache, now) && lockHeld ==> f == SelfLocked
    ensures !CacheHit(cache, now) && !lockHeld ==>
      match f
      case Fetched(s, c) => weather.Some? && weather.value != map[] && api.ApiOk?
        && s == FromCode(api.weathercode) && c == Cache(Some(now), Some(s))
      case FetchFailed(_) => weather.None? || weather.value == map[] || api.ApiFailed?
      case SelfLocked => false
  {
    if CacheHit(cache, now) then Fetched(cache.cachedWeather.value, cache)
    else if lockHeld then SelfLocked
    else match weather
      case None => FetchFailed("No [weather.*] configuration found")
      case Some(m) =>
        if m == map[] then FetchFailed("Could not find any weather configuration entry")
        else match api
          case ApiFailed(msg) => FetchFailed(msg)
          case ApiOk(code) =>
            var s := FromCode(code);
            Fetched(s, Cache(Some(now), Some(s)))
  }

  /** Within ten minutes of a successful request, no request is made and the same state is returned. */
  lemma RateLimited(cache: Cache, t: int, now: int, lockHeld: bool,
                    weather: Option<map<string, Config.WeatherConfig>>, api: ApiOutcome, api': ApiOutcome)
    requires !CacheHit(cache, t) && FetchStep(cache, t, false, weather, api).Fetched?
    requires t <= now < t + CacheWindow
    ensures var f := FetchStep(cache, t, false, weather, api);
      FetchStep(f.cache, now, lockHeld, weather, api') == Fetched(f.state, f.cache)
  {
  }

  /**
   * As written, `evaluate` calls `fetch_weather` while it holds the state
   * lock: `None` when it returns before fetching (no weather map).
   */
  function EvaluateFetchAsWritten(cache: Cache, now: int, weather: Option<map<string, Config.WeatherConfig>>,
                                  api: ApiOutcome): (f: Option<Fetch>)
    ensures weather.None? <==> f.None?
  {
    if weather.None? then None else Some(FetchStep(cache, now, true, weather, api))
  }

  /**
   * With the code as written: after a successful initial fetch at `t`, the
   * first evaluation (same instant) is served from the cache, and the next
   * one, an interval later, re-locks the state and never returns.
   */
  lemma AsWrittenSecondEvaluationSelfLocks(t: int, m: map<string, Config.WeatherConfig>, code: int, api: ApiOutcome)
    requires m != map[]
    ensures var c := FetchStep(Cache(None, None), t, false, Some(m), ApiOk(code)).cache;
      && EvaluateFetchAsWritten(c, t, Some(m), api) == Some(Fetched(FromCode(code), c))
      && EvaluateFetchAsWritten(c, t + WeatherInterval, Some(m), api) == Some(SelfLocked)
  {
  }

  /** With the code as written, if the initial fetch failed the first evaluation never returns. */
  lemma AsWrittenFailedInitSelfLocks(now: int, m: map<string, Config.WeatherConfig>, api: ApiOutcome)
    ensures EvaluateFetchAsWritten(Cache(None, None), now, Some(m), api) == Some(SelfLocked)
  {
  }

  /** Fetching without the lock held always returns. */
  lemma FetchUnlockedReturns(cache: Cache, now: int, weather: Option<map<string, Config.WeatherConfig>>, api: ApiOutcome)
    ensures !FetchStep(cache, now, false, weather, api).SelfLocked?
  {
  }

  /** The image for `o` if its change is due: the state differs from the recorded one and an image is named. */
  function Decide(o: string, rw: map<string, Config.WeatherConfig>, s: WeatherState,
                  last: map<string, WeatherState>): Option<string>
    requires o in rw
  {
    if Get(last, o) == Some(s) then None else ImageFor(s, rw[o].weather)
  }

  /** Output to resolved image path for every output whose change is due. */
  function Emitted(rw: map<string, Config.WeatherConfig>, s: WeatherState, last: map<string, WeatherState>,
                   pool: Option<string>, dirs: set<string>): (e: map<string, string>)
    ensures e.Keys <= rw.Keys
  {
    map o | o in rw && Decide(o, rw, s, last).Some? :: State.ResolvePath(pool, Decide(o, rw, s, last).value, dirs)
  }

  /** The state as a value for every resolved output. */
  function StateFor(rw: map<string, Config.WeatherConfig>, s: WeatherState): (values: map<string, WeatherState>)
    ensures values.Keys == rw.Keys
    ensures forall o :: o in values ==> values[o] == s
  {
    map o | o in rw :: s
  }

  /** The recorded states after an evaluation: the current state for exactly the outputs that changed. */
  function NextLast(rw: map<string, Config.WeatherConfig>, s: WeatherState, last: map<string, WeatherState>)
    : map<string, WeatherState>
  {
    map o | o in last.Keys + rw.Keys && (o in last || (o in rw && Decide(o, rw, s, last).Some?)) ::
      if o in rw && Decide(o, rw, s, last).Some? then s else last[o]
  }

  /**
   * A change is emitted for an output exactly when its recorded state is not
   * the current one and its map names an image for the state (own key first,
   * then the variants); the path is that image resolved against the pool.
   */
  lemma EmittedRule(rw: map<string, Config.WeatherConfig>, s: WeatherState, last: map<string, WeatherState>,
                    pool: Option<string>, dirs: set<string>, o: string)
    ensures var e := Emitted(rw, s, last, pool, dirs);
      && (o in e <==> o in rw && Get(last, o) != Some(s) && exists k :: k in Candidates(s) && k in rw[o].weather)
      && (o in e ==> e[o] == State.ResolvePath(pool, ImageFor(s, rw[o].weather).value, dirs))
  {
    if o in rw && (exists k :: k in Candidates(s) && k in rw[o].weather) {
      var k :| k in Candidates(s) && k in rw[o].weather;
      var i :| 0 <= i < |Candidates(s)| && Candidates(s)[i] == k;
    }
  }

  /** Whether an output is planned depends on the memory only through that output's entry. */
  lemma PlannedByDecide(rw: map<string, Config.WeatherConfig>, s: WeatherState, last0: map<string, WeatherState>,
                        last: map<string, WeatherState>, pool: Option<string>, dirs: set<string>, o: string)
    requires o in rw && Get(last, o) == Get(last0, o)
    ensures var e := Emitted(rw, s, last0, pool, dirs);
      && (o in e <==> Decide(o, rw, s, last).Some?)
      && (o in e ==> e[o] == State.ResolvePath(pool, Decide(o, rw, s, last).value, dirs))
  {
  }

  /** Once every resolved output is visited, the recorded states are `NextLast`. */
  lemma NextLastReached(rw: map<string, Config.WeatherConfig>, s: WeatherState, last0: map<string, WeatherState>,
                        pool: Option<string>, dirs: set<string>, last: map<string, WeatherState>)
    requires Records(last, last0, Emitted(rw, s, last0, pool, dirs), StateFor(rw, s), rw.Keys)
    ensures last == NextLast(rw, s, last0)
  {
    var n := NextLast(rw, s, last0);
    assert last.Keys == n.Keys;
  }

  /** Evaluating again with the same weather changes nothing. */
  lemma {:induction false} SameWeatherIsQuiet(rw: map<string, Config.WeatherConfig>, s: WeatherState,
                                              last: map<string, WeatherState>, pool: Option<string>, dirs: set<string>)
    ensures Emitted(rw, s, NextLast(rw, s, last), pool, dirs) == map[]
  {
    var next := NextLast(rw, s, last);
    forall o | o in rw ensures Decide(o, rw, s, next).None? {
      if Decide(o, rw, s, last).Some? {
        assert next[o] == s;
      } else if Get(last, o) == Some(s) {
        assert next[o] == last[o];
      }
    }
    var e := Emitted(rw, s, next, pool, dirs);
    assert forall o :: o !in e;
  }

  /** One iteration of the per-output loop of `evaluate`. */
  method VisitOutput(o: string, rw: map<string, Config.WeatherConfig>, s: WeatherState, pool: Option<string>,
                     dirs: set<string>, last: map<string, WeatherState>, changes: seq<OutputChange>,
                     ghost last0: map<string, WeatherState>, ghost done: set<string>)
    returns (last': map<string, WeatherState>, changes': seq<OutputChange>)
    requires o in rw && o !in done
    requires Progress(changes, last, last0, Emitted(rw, s, last0, pool, dirs), StateFor(rw, s), done)
    ensures Progress(changes', last', last0, Emitted(rw, s, last0, pool, dirs), StateFor(rw, s), done + {o})
  {
    ghost var plan := Emitted(rw, s, last0, pool, dirs);
    ghost var values := StateFor(rw, s);
    PlannedByDecide(rw, s, last0, last, pool, dirs, o);
    last', changes' := last, changes;
    if o in last && last[o] == s {
      ProgressSkip(changes, last, last0, plan, values, done, o);
      return;
    }
    var image := ImageFor(s, rw[o].weather);
    if image.None? {
      ProgressSkip(changes, last, last0, plan, values, done, o);
      return;
    }
    var path := State.ResolvePath(pool, image.value, dirs);
    ProgressAdd(changes, last, last0, plan, values, done, o);
    last' := last[o := s];
    changes' := changes + [OutputChange(o, path)];
  }

  /**
   * What one `evaluate` does, from the cache `cache0` and remembered states
   * `last0` before to `cache` and `last` after: nothing without a weather
   * configuration or when the fetch fails; otherwise the fetched cache, then
   * the enumeration error or the plan for the fetched state, returned in full
   * when it is not empty, with the states it records.
   */
  predicate Evaluated(cache0: Cache, last0: map<string, WeatherState>, cache: Cache, last: map<string, WeatherState>,
                      view: State.StateView, run: EnumeratorRun, now: int, api: ApiOutcome, dirs: set<string>,
                      r: Evaluation)
  {
    && (view.config.weather.None? ==> r == Ok(None) && cache == cache0 && last == last0)
    && (view.config.weather.Some? ==>
        var f := FetchStep(cache0, now, false, view.config.weather, api);
        && (f.FetchFailed? ==> r == Ok(None) && cache == cache0 && last == last0)
        && (f.Fetched? ==> cache == f.cache)
        && (f.Fetched? && Detect(run).Err? ==> r == Err(Detect(run).error) && last == last0)
        && (f.Fetched? && Detect(run).Ok? ==>
              var rw := Resolved(Detect(run).value.outputs, view.config.weather.value);
              var plan := Emitted(rw, f.state, last0, view.imagesPool, dirs);
              && last == NextLast(rw, f.state, last0)
              && (plan == map[] ==> r == Ok(None))
              && (plan != map[] ==> r.Ok? && r.value.Some? && Enumerates(r.value.value.changes, plan))))
  }

  /** The cache after `init`: a successful first fetch when a weather entry exists, else unchanged. */
  function CacheAfterInit(cache0: Cache, view: State.StateView, now: int, api: ApiOutcome): Cache {
    var w := view.config.weather;
    var f := FetchStep(cache0, now, false, w, api);
    if w.Some? && w.value != map[] && f.Fetched? then f.cache else cache0
  }

  /** The per-output loop of `evaluate` on the values it reads and writes. */
  method SweepOutputs(rw: map<string, Config.WeatherConfig>, s: WeatherState, pool: Option<string>, dirs: set<string>,
                      last0: map<string, WeatherState>)
    returns (changes: seq<OutputChange>, last: map<string, WeatherState>)
    ensures Progress(changes, last, last0, Emitted(rw, s, last0, pool, dirs), StateFor(rw, s), rw.Keys)
  {
    ghost var plan := Emitted(rw, s, last0, pool, dirs);
    ghost var values := StateFor(rw, s);
    last := last0;
    changes := [];
    var pending := rw.Keys;
    ghost var done: set<string> := {};
    ProgressStart(last0, plan, values);
    while pending != {}
      invariant pending <= rw.Keys && done == rw.Keys - pending
      invariant Progress(changes, last, last0, plan, values, done)
      decreases |pending|
    {
      var o :| o in pending;
      PendingShrinks(rw.Keys, pending, o);
      last, changes := VisitOutput(o, rw, s, pool, dirs, last, changes, last0, done);
      pending, done := pending - {o}, done + {o};
    }
  }

  class WeatherTrigger {
    /** Keyed by output name: the weather state last applied to it. */
    var lastWeather: map<string, WeatherState>
    var lastApiCall: Option<int>
    var cachedWeather: Option<WeatherState>

    constructor ()
      ensures lastWeather == map[] && lastApiCall.None? && cachedWeather.None?
    {
      lastWeather := map[];
      lastApiCall := None;
      cachedWeather := None;
    }

    function Interval(): nat {
      WeatherInterval
    }

    function CacheView(): Cache
      reads this
    {
      Cache(lastApiCall, cachedWeather)
    }

    /**
     * `fetch_weather` called with the state lock free; `weather` is the map
     * it reads under the lock, `api` what the request returns.
     */
    method FetchWeather(now: int, weather: Option<map<string, Config.WeatherConfig>>, api: ApiOutcome)
      returns (r: Result<WeatherState>)
      modifies this
      ensures var f := FetchStep(old(CacheView()), now, false, weather, api);
        && (f.Fetched? ==> r == Ok(f.state) && CacheView() == f.cache)
        && (f.FetchFailed? ==> r == Err(f.error) && CacheView() == old(CacheView()))
      ensures lastWeather == old(lastWeather)
    {
      if lastApiCall.Some? && now - lastApiCall.value < CacheWindow && cachedWeather.Some? {
        return Ok(cachedWeather.value);
      }
      if weather.None? {
        return Err("No [weather.*] configuration found");
      }
      if weather.value == map[] {
        return Err("Could not find any weather configuration entry");
      }
      if api.ApiFailed? {
        return Err(api.message);
      }
      var s := FromCode(api.weathercode);
      lastApiCall := Some(now);
      cachedWeather := Some(s);
      r := Ok(s);
    }

    /** `WeatherTrigger::init`: a first fetch when a weather entry exists; its failure is ignored. */
    method Init(view: State.StateView, now: int, api: ApiOutcome) returns (r: Result<()>)
      modifies this
      ensures r == Ok(())
      ensures CacheView() == CacheAfterInit(old(CacheView()), view, now, api)
      ensures lastWeather == old(lastWeather)
    {
      if view.config.weather.Some? && view.config.weather.value != map[] {
        var fetched := FetchWeather(now, view.config.weather, api);
      }
      r := Ok(());
    }

    /** The per-output loop of `evaluate`. */
    method Sweep(rw: map<string, Config.WeatherConfig>, s: WeatherState, pool: Option<string>, dirs: set<string>)
      returns (changes: seq<OutputChange>)
      modifies this`lastWeather
      ensures lastWeather == NextLast(rw, s, old(lastWeather))
      ensures Enumerates(changes, Emitted(rw, s, old(lastWeather), pool, dirs))
    {
      var last;
      changes, last := SweepOutputs(rw, s, pool, dirs, lastWeather);
      ProgressDone(changes, last, old(lastWeather), Emitted(rw, s, old(lastWeather), pool, dirs), StateFor(rw, s), rw.Keys);
      NextLastReached(rw, s, old(lastWeather), pool, dirs, last);
      lastWeather := last;
    }

    /**
     * `WeatherTrigger::evaluate` with the weather fetched while the state
     * lock is free. `now` is the clock, `api` what a request would return,
     * `run` the output enumeration, `dirs` the directories that exist.
     */
    method Evaluate(view: State.StateView, run: EnumeratorRun, now: int, api: ApiOutcome, dirs: set<string>)
      returns (r: Evaluation)
      modifies this
      ensures Evaluated(old(CacheView()), old(lastWeather), CacheView(), lastWeather, view, run, now, api, dirs, r)
      ensures r.Ok? && r.value.Some? ==> !r.value.value.IsEmpty()
    {
      if view.config.weather.None? {
        return Ok(None);
      }
      var weatherMap := view.config.weather.value;
      ghost var f := FetchStep(CacheView(), now, false, view.config.weather, api);
      var fetched := FetchWeather(now, view.config.weather, api);
      if fetched.Err? {
        return Ok(None);
      }
      var s := fetched.value;
      var detected := Detect(run);
      if detected.Err? {
        return Err(detected.error);
      }
      var resolver := detected.value;
      if |resolver.outputs| == 0 {
        assert Resolved(resolver.outputs, weatherMap) == map[];
        assert Emitted(map[], s, lastWeather, view.imagesPool, dirs) == map[];
        return Ok(None);
      }
      var rw := ResolveMap(resolver, weatherMap);
      ghost var plan := Emitted(rw, s, lastWeather, view.imagesPool, dirs);
      var changes := Sweep(rw, s, view.imagesPool, dirs);
      EnumeratesSize(changes, plan);
      if |changes| == 0 {
        assert plan.Keys == {};
        return Ok(None);
      }
      r := Ok(Some(TriggerResult(changes)));
    }
  }
}
