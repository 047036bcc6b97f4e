/**
 * The day/night trigger: per output, decides from the clock hour whether it
 * is day or night, and emits a change only when that flag differs from the
 * one last applied to the output.
 */
module DayTime {
  import opened Types
  import opened Text
  import opened Resolver
  import opened Trigger
  import State
  import Config

  /** Default window bounds, `constants::day_start` and `constants::day_end`. */
  const DayStart: nat := 8
  const DayEnd: nat := 19
  const DayTimeInterval: nat := 60

  /** The default range string, built as `format!("{}-{}", day_start(), day_end())`. */
  function DefaultDayRange(): string {
    Decimal(DayStart) + "-" + Decimal(DayEnd)
  }

  function RangeOf(cfg: Config.DayTimeConfig): string {
    cfg.dayRange.GetOr(DefaultDayRange())
  }

  /**
   * `day_start` is the first `-`-separated piece and `night_start` the last,
   * each parsed as a `u32`; `None` where the source would panic.
   */
  function Bounds(range: string): (b: Option<(nat, nat)>)
    ensures b.Some? ==> b.value.0 < U32Limit && b.value.1 < U32Limit
  {
    var parts := Split(range, '-');
    match (ParseU32(parts[0]), ParseU32(parts[|parts| - 1]))
    case (Ok(d), Ok(n)) => Some((d, n))
    case _ => None
  }

  predicate RangeParses(cfg: Config.DayTimeConfig) {
    Bounds(RangeOf(cfg)).Some?
  }

  predicate AllRangesParse(rt: map<string, Config.DayTimeConfig>) {
    forall o :: o in rt ==> RangeParses(rt[o])
  }

  /**
   * The day window `[dayStart, nightStart)`; when `dayStart` is not below
   * `nightStart` it wraps past midnight.
   */
  predicate IsDaytime(dayStart: nat, nightStart: nat, hour: nat) {
    if dayStart < nightStart then dayStart <= hour < nightStart
    else hour >= dayStart || hour < nightStart
  }

  /** `DayTimeTrigger::is_daytime_for`, with the clock hour as a parameter. */
  predicate IsDaytimeFor(cfg: Config.DayTimeConfig, hour: nat)
    requires RangeParses(cfg)
  {
    var b := Bounds(RangeOf(cfg)).value;
    IsDaytime(b.0, b.1, hour)
  }

  /** With equal bounds every hour is day. */
  lemma EqualBoundsAlwaysDay(bound: nat, hour: nat)
    ensures IsDaytime(bound, bound, hour)
  {
  }

  /** Swapping distinct bounds swaps day and night. */
  lemma SwappedBoundsSwapDayAndNight(dayStart: nat, nightStart: nat, hour: nat)
    requires dayStart != nightStart
    ensures IsDaytime(dayStart, nightStart, hour) <==> !IsDaytime(nightStart, dayStart, hour)
  {
  }

  /** The default range prints as `8-19`. */
  lemma DefaultRangeText()
    ensures DefaultDayRange() == "8-19"
  {
    assert Decimal(8) == "8";
    assert Decimal(19) == "19" by {
      assert Decimal(1) == "1" && Decimal(9) == "9";
    }
  }

  /** `"8-19"` splits at its dash into two decimal numbers. */
  lemma DefaultRangeParts()
    ensures Split("8-19", '-') == ["8", "19"]
    ensures ParseU32("8") == Ok(8) && ParseU32("19") == Ok(19)
  {
    SplitStep("8-19", '-', 1);
    assert "8-19"[..1] == "8" && "8-19"[2..] == "19";
    assert Split("19", '-') == ["19"];
    assert DigitsValue("19") == 19 by {
      assert "19"[..1] == "1";
      assert DigitsValue("1") == 1 by { assert "1"[..0] == ""; }
    }
    assert DigitsValue("8") == 8 by { assert "8"[..0] == ""; }
  }

  lemma DefaultRangeBounds()
    ensures Bounds(DefaultDayRange()) == Some((8, 19))
  {
    DefaultRangeText();
    DefaultRangeParts();
  }

  /** Without a configured range, hours 8 to 18 are day and 19 to 7 are night. */
  lemma DefaultWindow(day: string, night: string, hour: nat)
    requires hour < 24
    ensures RangeParses(Config.DayTimeConfig(day, night, None))
    ensures IsDaytimeFor(Config.DayTimeConfig(day, night, None), hour) <==> 8 <= hour < 19
  {
    DefaultRangeBounds();
  }

  /** `"22-6"` wraps past midnight: 22:00 through 05:59 is day. */
  lemma OvernightWindow(day: string, night: string, hour: nat)
    requires hour < 24
    ensures RangeParses(Config.DayTimeConfig(day, night, Some("22-6")))
    ensures IsDaytimeFor(Config.DayTimeConfig(day, night, Some("22-6")), hour) <==> hour >= 22 || hour < 6
  {
    OvernightBounds();
  }

  /** `"22-6"` has the bounds 22 and 6. */
  lemma OvernightBounds()
    ensures Bounds("22-6") == Some((22, 6))
  {
    SplitStep("22-6", '-', 2);
    assert "22-6"[..2] == "22" && "22-6"[3..] == "6";
    assert Split("6", '-') == ["6"];
    assert DigitsValue("22") == 22 by {
      assert "22"[..1] == "2";
      assert DigitsValue("2") == 2 by { assert "2"[..0] == ""; }
    }
    assert DigitsValue("6") == 6 by { assert "6"[..0] == ""; }
  }

  /** A day/night field is used as an image only if it looks like a path. */
  predicate LooksLikePath(s: string) {
    '/' in s || '.' in s
  }

  /**
   * The image for an output: its day or night field if that looks like a
   * path, else the image of its resolved background entry, else `""` (skip).
   */
  function ChooseImage(isDay: bool, tc: Config.DayTimeConfig, bg: Option<Config.BackgroundConfig>): (img: string)
    ensures LooksLikePath(if isDay then tc.day else tc.night) ==> img == (if isDay then tc.day else tc.night)
    ensures !LooksLikePath(if isDay then tc.day else tc.night) ==>
      img == (if bg.Some? && bg.value.image.Some? then bg.value.image.value else "")
  {
    var field := if isDay then tc.day else tc.night;
    if LooksLikePath(field) then field
    else match bg
      case Some(entry) => entry.image.GetOr("")
      case None => ""
  }

  /** The day flag of every resolved output at `hour`. */
  function DayFlags(rt: map<string, Config.DayTimeConfig>, hour: nat): (flags: map<string, bool>)
    requires AllRangesParse(rt)
    ensures flags.Keys == rt.Keys
    ensures forall o :: o in rt ==> flags[o] == IsDaytimeFor(rt[o], hour)
  {
    map o | o in rt :: IsDaytimeFor(rt[o], hour)
  }

  /**
   * The decision for one resolved output, given its day flag, against the
   * recorded flags `last`: `Some(image)` when a change is due (the flag
   * differs or was never recorded, and an image was found).
   */
  function Decide(o: string, rt: map<string, Config.DayTimeConfig>, rb: map<string, Config.BackgroundConfig>,
                  flags: map<string, bool>, last: map<string, bool>): Option<string>
    requires o in rt && o in flags
  {
    if o in last && last[o] == flags[o] then None
    else
      var img := ChooseImage(flags[o], rt[o], Get(rb, o));
      if img == "" then None else Some(img)
  }

  /** Output to resolved image path for every output whose change is due. */
  function Emitted(rt: map<string, Config.DayTimeConfig>, rb: map<string, Config.BackgroundConfig>, flags: map<string, bool>,
                   last: map<string, bool>, pool: Option<string>, dirs: set<string>): (e: map<string, string>)
    requires rt.Keys <= flags.Keys
    ensures e.Keys <= rt.Keys
  {
    map o | o in rt && Decide(o, rt, rb, flags, last).Some? ::
      State.ResolvePath(pool, Decide(o, rt, rb, flags, last).value, dirs)
  }

  /** The recorded flags after an evaluation: updated exactly for the outputs that changed. */
  function NextLast(rt: map<string, Config.DayTimeConfig>, rb: map<string, Config.BackgroundConfig>, flags: map<string, bool>,
                    last: map<string, bool>): map<string, bool>
    requires rt.Keys <= flags.Keys
  {
    map o | o in last.Keys + rt.Keys && (o in last || (o in rt && Decide(o, rt, rb, flags, last).Some?)) ::
      if o in rt && Decide(o, rt, rb, flags, last).Some? then flags[o] else last[o]
  }

  /**
   * A change is emitted for an output exactly when its day flag differs from
   * the recorded one (an absent record counts as different) and an image is
   * found; the path is that image resolved against the pool.
   */
  lemma EmittedRule(rt: map<string, Config.DayTimeConfig>, rb: map<string, Config.BackgroundConfig>, hour: nat,
                    last: map<string, bool>, pool: Option<string>, dirs: set<string>, o: string)
    requires AllRangesParse(rt)
    ensures var e := Emitted(rt, rb, DayFlags(rt, hour), last, pool, dirs);
      && (o in e <==>
            o in rt && Get(last, o) != Some(IsDaytimeFor(rt[o], hour))
            && ChooseImage(IsDaytimeFor(rt[o], hour), rt[o], Get(rb, o)) != "")
      && (o in e ==> e[o] == State.ResolvePath(pool, ChooseImage(IsDaytimeFor(rt[o], hour), rt[o], Get(rb, o)), dirs))
  {
  }

  /**
   * Only emitted outputs have their flag rewritten, and to the current one;
   * an output skipped for lack of an image is not recorded and stays eligible.
   */
  lemma RecordedOnlyWhenEmitted(rt: map<string, Config.DayTimeConfig>, rb: map<string, Config.BackgroundConfig>, hour: nat,
                                last: map<string, bool>, pool: Option<string>, dirs: set<string>, o: string)
    requires AllRangesParse(rt)
    ensures var flags := DayFlags(rt, hour);
      && (Get(NextLast(rt, rb, flags, last), o) != Get(last, o) ==> o in Emitted(rt, rb, flags, last, pool, dirs))
      && (o in Emitted(rt, rb, flags, last, pool, dirs) ==> Get(NextLast(rt, rb, flags, last), o) == Some(IsDaytimeFor(rt[o], hour)))
  {
  }

  /** A second evaluation at the same hour with the same configuration emits nothing. */
  lemma {:induction false} RepeatIsQuiet(rt: map<string, Config.DayTimeConfig>, rb: map<string, Config.BackgroundConfig>,
                                         flags: map<string, bool>, last: map<string, bool>, pool: Option<string>, dirs: set<string>)
    requires rt.Keys <= flags.Keys
    ensures Emitted(rt, rb, flags, NextLast(rt, rb, flags, last), pool, dirs) == map[]
  {
    var next := NextLast(rt, rb, flags, last);
    forall o | o in rt ensures Decide(o, rt, rb, flags, next).None? {
      if Decide(o, rt, rb, flags, last).Some? {
        assert next[o] == flags[o];
      } else if o in last && last[o] == flags[o] {
        assert next[o] == last[o];
      }
    }
    var e := Emitted(rt, rb, flags, next, pool, dirs);
    assert forall o :: o !in e;
  }

  /** Once every resolved output is visited, the recorded flags are `NextLast`. */
  lemma NextLastReached(rt: map<string, Config.DayTimeConfig>, rb: map<string, Config.BackgroundConfig>, flags: map<string, bool>,
                        last0: map<string, bool>, pool: Option<string>, dirs: set<string>, last: map<string, bool>)
    requires rt.Keys <= flags.Keys
    requires Records(last, last0, Emitted(rt, rb, flags, last0, pool, dirs), flags, rt.Keys)
    ensures last == NextLast(rt, rb, flags, last0)
  {
    var n := NextLast(rt, rb, flags, last0);
    assert last.Keys == n.Keys;
  }

  /** The maps one evaluation works on: resolved day/night and background entries. */
  predicate EvaluationDefined(view: State.StateView, run: EnumeratorRun) {
    match view.config.timeConfig
    case None => true
    case Some(tm) =>
      match Detect(run)
      case Err(_) => true
      case Ok(resolver) => AllRangesParse(Resolved(resolver.outputs, tm))
  }

  function ResolvedBackground(view: State.StateView, outputs: seq<string>): map<string, Config.BackgroundConfig> {
    match view.config.background
    case Some(bg) => Resolved(outputs, bg)
    case None => map[]
  }

  /**
   * What one `evaluate` does, from the remembered day flags `last0` before to
   * `last` after: nothing without a time configuration, the enumeration
   * error when there is one, and otherwise the plan for the current hour,
   * returned in full when it is not empty, with the flags it records.
   */
  predicate Evaluated(last0: map<string, bool>, last: map<string, bool>, view: State.StateView,
                      run: EnumeratorRun, hour: nat, dirs: set<string>, r: Evaluation)
    requires EvaluationDefined(view, run)
  {
    && (view.config.timeConfig.None? ==> r == Ok(None) && last == last0)
    && (view.config.timeConfig.Some? && Detect(run).Err? ==>
        r == Err(Detect(run).error) && last == last0)
    && (view.config.timeConfig.Some? && Detect(run).Ok? ==>
        var outputs := Detect(run).value.outputs;
        var rt := Resolved(outputs, view.config.timeConfig.value);
        var rb := ResolvedBackground(view, outputs);
        var flags := DayFlags(rt, hour);
        var plan := Emitted(rt, rb, flags, last0, view.imagesPool, dirs);
        && last == NextLast(rt, rb, flags, last0)
        && (plan == map[] ==> r == Ok(None))
        && (plan != map[] ==> r.Ok? && r.value.Some? && Enumerates(r.value.value.changes, plan)))
  }

  class DayTimeTrigger {
    /** Keyed by output name; `true` means the day image is showing. */
    var lastState: map<string, bool>

    constructor ()
      ensures lastState == map[]
    {
      lastState := map[];
    }

    function Interval(): nat {
      DayTimeInterval
    }

    /**
     * `DayTimeTrigger::init`: only reads; fails when outputs cannot be detected.
     * A malformed range panics in the source, hence the precondition.
     */
    method Init(view: State.StateView, run: EnumeratorRun) returns (r: Result<()>)
      requires EvaluationDefined(view, run)
      ensures r.Err? <==> view.config.timeConfig.Some? && Detect(run).Err?
    {
      if view.config.timeConfig.None? {
        return Ok(());
      }
      var detected := Detect(run);
      if detected.Err? {
        return Err(detected.error);
      }
      r := Ok(());
    }

    /** The per-output loop of `evaluate`, with the day flags computed for the current hour. */
    method Sweep(rt: map<string, Config.DayTimeConfig>, rb: map<string, Config.BackgroundConfig>, flags: map<string, bool>,
                 pool: Option<string>, dirs: set<string>) returns (changes: seq<OutputChange>)
      requires rt.Keys <= flags.Keys
      modifies this
      ensures lastState == NextLast(rt, rb, flags, old(lastState))
      ensures Enumerates(changes, Emitted(rt, rb, flags, old(lastState), pool, dirs))
    {
      ghost var last0 := lastState;
      ghost var plan := Emitted(rt, rb, flags, last0, pool, dirs);
      var last := lastState;
      changes := [];
      var pending := rt.Keys;
      ghost var done: set<string> := {};
      EnumeratesPartStart(plan);
      RecordsStart(last0, plan, flags);
      while pending != {}
        invariant pending <= rt.Keys && done == rt.Keys - pending
        invariant Records(last, last0, plan, flags, done)
        invariant EnumeratesPart(changes, plan, done)
        decreases |pending|
      {
        var o :| o in pending;
        ghost var visited := done;
        PendingShrinks(rt.Keys, pending, o);
        pending, done := pending - {o}, done + {o};
        var isDay := flags[o];
        if o in last && last[o] == isDay {
          EnumeratesPartSkip(changes, plan, visited, o);
          RecordsSkip(last, last0, plan, flags, visited, o);
          continue;
        }
        var image := ChooseImage(isDay, rt[o], Get(rb, o));
        if image == "" {
          EnumeratesPartSkip(changes, plan, visited, o);
          RecordsSkip(last, last0, plan, flags, visited, o);
          continue;
        }
        var path := State.ResolvePath(pool, image, dirs);
        RecordsAdd(last, last0, plan, flags, visited, o);
        last := last[o := isDay];
        EnumeratesPartAdd(changes, plan, visited, o);
        changes := changes + [OutputChange(o, path)];
      }
      EnumeratesPartDone(changes, plan, rt.Keys);
      NextLastReached(rt, rb, flags, last0, pool, dirs, last);
      lastState := last;
    }

    /**
     * `DayTimeTrigger::evaluate`, with the clock hour as a parameter. `view`
     * is the state read under the lock, `run` the output enumeration and
     * `dirs` the directories that exist.
     */
    method Evaluate(view: State.StateView, run: EnumeratorRun, hour: nat, dirs: set<string>) returns (r: Evaluation)
      requires EvaluationDefined(view, run)
      modifies this
      ensures Evaluated(old(lastState), lastState, view, run, hour, dirs, r)
      ensures r.Ok? && r.value.Some? ==> !r.value.value.IsEmpty()
    {
      if view.config.timeConfig.None? {
        return Ok(None);
      }
      var timeMap := view.config.timeConfig.value;
      var detected := Detect(run);
      if detected.Err? {
        return Err(detected.error);
      }
      var resolver := detected.value;
      var rt := ResolveMap(resolver, timeMap);
      var rb: map<string, Config.BackgroundConfig> := map[];
      if view.config.background.Some? {
        rb := ResolveMap(resolver, view.config.background.value);
      }
      var flags := DayFlags(rt, hour);
      ghost var plan := Emitted(rt, rb, flags, lastState, view.imagesPool, dirs);
      var changes := Sweep(rt, rb, flags, view.imagesPool, dirs);
      EnumeratesSize(changes, plan);
      if |changes| == 0 {
        assert plan.Keys == {};
        return Ok(None);
      }
      r := Ok(Some(TriggerResult(changes)));
    }
  }
}
