/**
 * The trigger scheduler: each registered trigger carries the time of its
 * next run. A pass evaluates, in registration order, every trigger that is
 * due, hands a produced batch to `apply`, and reschedules the trigger one
 * interval later whatever the outcome; no outcome ends the loop.
 */
module Scheduler {
  import opened Types
  import opened Trigger
  import Resolver
  import State
  import StaticTriggers
  import DayTime
  import Weather
  import Wallpaper
  import Apply

  /** The three trigger kinds behind the `Trigger` interface. */
  datatype AnyTrigger =
    | StaticT(st: StaticTriggers.StaticTrigger)
    | DayTimeT(dt: DayTime.DayTimeTrigger)
    | WeatherT(wt: Weather.WeatherTrigger)
  {
    /** `Trigger::interval`, in seconds. */
    function Interval(): (seconds: nat)
      ensures seconds > 0
    {
      match this
      case StaticT(_) => StaticTriggers.StaticInterval
      case DayTimeT(_) => DayTime.DayTimeInterval
      case WeatherT(_) => Weather.WeatherInterval
    }

    function Obj(): object {
      match this
      case StaticT(t) => t
      case DayTimeT(t) => t
      case WeatherT(t) => t
    }
  }

  /** `ScheduledTrigger`. */
  datatype Scheduled = Scheduled(trigger: AnyTrigger, nextRun: int)

  /**
   * What one pass sees of the world: the application state, the output
   * enumeration, the clock (hour and seconds), the weather service's answer,
   * the directories that exist, and how renderer launches end.
   */
  datatype Env = Env(view: State.StateView, run: Resolver.EnumeratorRun, hour: nat, now: int,
                     api: Weather.ApiOutcome, dirs: set<string>, launch: seq<string> -> Apply.SpawnOutcome)

  /** A day/night trigger needs a well-formed range for every resolved output. */
  predicate DayTimeReady(env: Env) {
    DayTime.EvaluationDefined(env.view, env.run)
  }

  predicate IsDue(s: Scheduled, now: int) {
    now >= s.nextRun
  }

  /** The positions of the due triggers, in registration order. */
  function DueIndices(ts: seq<Scheduled>, now: int): (due: seq<nat>)
    ensures forall k :: 0 <= k < |due| ==> due[k] < |ts|
  {
    if ts == [] then []
    else DueIndices(ts[..|ts| - 1], now) + (if IsDue(ts[|ts| - 1], now) then [|ts| - 1] else [])
  }

  /** Exactly the due triggers are listed, each once, in increasing position. */
  lemma {:induction false} DueIndicesRule(ts: seq<Scheduled>, now: int)
    ensures forall i :: i in DueIndices(ts, now) <==> 0 <= i < |ts| && IsDue(ts[i], now)
    ensures forall k, l :: 0 <= k < l < |DueIndices(ts, now)| ==> DueIndices(ts, now)[k] < DueIndices(ts, now)[l]
    decreases |ts|
  {
    if ts != [] {
      var init := ts[..|ts| - 1];
      DueIndicesRule(init, now);
      assert forall i :: 0 <= i < |init| ==> init[i] == ts[i];
    }
  }

  /** One entry after a pass at `now`: a due trigger moves to `now + interval`, another keeps its time. */
  function Advance(s: Scheduled, now: int): (s': Scheduled)
    ensures s'.trigger == s.trigger
    ensures IsDue(s, now) ==> s'.nextRun == now + s.trigger.Interval() > now
    ensures !IsDue(s, now) ==> s' == s
  {
    if IsDue(s, now) then s.(nextRun := now + s.trigger.Interval()) else s
  }

  /** The schedule after a pass at `now`. */
  function Rescheduled(ts: seq<Scheduled>, now: int): (ts': seq<Scheduled>)
    ensures |ts'| == |ts|
    ensures forall i :: 0 <= i < |ts| ==> ts'[i] == Advance(ts[i], now)
  {
    if ts == [] then []
    else Rescheduled(ts[..|ts| - 1], now) + [Advance(ts[|ts| - 1], now)]
  }

  /** After a pass nothing is due at the same instant: every evaluated trigger moved into the future. */
  lemma PassLeavesNothingDue(ts: seq<Scheduled>, now: int)
    ensures DueIndices(Rescheduled(ts, now), now) == []
  {
    NoneDue(Rescheduled(ts, now), now);
  }

  lemma {:induction false} NoneDue(ts: seq<Scheduled>, now: int)
    requires forall i :: 0 <= i < |ts| ==> !IsDue(ts[i], now)
    ensures DueIndices(ts, now) == []
    decreases |ts|
  {
    if ts != [] {
      NoneDue(ts[..|ts| - 1], now);
    }
  }

  /** The batches handed to `apply`: the `Ok(Some(result))` outcomes, in order. */
  function Batches(outcomes: seq<Evaluation>): (batches: seq<TriggerResult>)
    ensures |batches| <= |outcomes|
  {
    if outcomes == [] then []
    else
      var last := outcomes[|outcomes| - 1];
      Batches(outcomes[..|outcomes| - 1]) + (if last.Ok? && last.value.Some? then [last.value.value] else [])
  }

  /** Evaluation errors and `None` results are never applied. */
  lemma {:induction false} BatchesOnlyFromResults(outcomes: seq<Evaluation>)
    ensures (forall k :: 0 <= k < |outcomes| ==> outcomes[k].Err? || outcomes[k] == Ok(None)) ==> Batches(outcomes) == []
    ensures forall b :: b in Batches(outcomes) ==> Ok(Some(b)) in outcomes
    decreases |outcomes|
  {
    if outcomes != [] {
      var init := outcomes[..|outcomes| - 1];
      BatchesOnlyFromResults(init);
      assert forall k :: 0 <= k < |init| ==> init[k] == outcomes[k];
    }
  }

  /** The part of a trigger's state that `init` and `evaluate` read and change. */
  datatype Snapshot =
    | StaticS(executed: bool)
    | DayTimeS(lastState: map<string, bool>)
    | WeatherS(cache: Weather.Cache, lastWeather: map<string, Weather.WeatherState>)

  function SnapshotOf(t: AnyTrigger): Snapshot
    reads t.Obj()
  {
    match t
    case StaticT(s) => StaticS(s.executed)
    case DayTimeT(d) => DayTimeS(d.lastState)
    case WeatherT(w) => WeatherS(Weather.Cache(w.lastApiCall, w.cachedWeather), w.lastWeather)
  }

  /** `evaluate` took a trigger from `before` to `after` and returned `r`, as its kind specifies. */
  predicate Evaluates(before: Snapshot, after: Snapshot, env: Env, r: Evaluation) {
    match before
    case StaticS(e0) =>
      after.StaticS? && StaticTriggers.Evaluated(e0, after.executed, env.view, env.run, env.dirs, r)
    case DayTimeS(l0) =>
      after.DayTimeS? && DayTimeReady(env)
      && DayTime.Evaluated(l0, after.lastState, env.view, env.run, env.hour, env.dirs, r)
    case WeatherS(c0, w0) =>
      after.WeatherS?
      && Weather.Evaluated(c0, w0, after.cache, after.lastWeather, env.view, env.run, env.now, env.api, env.dirs, r)
  }

  /** `init` took a trigger from `before` to `after` and returned `r`, as its kind specifies. */
  predicate Initialises(before: Snapshot, after: Snapshot, env: Env, r: Result<()>) {
    match before
    case StaticS(_) => r == Ok(()) && after == before
    case DayTimeS(_) =>
      (r.Err? <==> env.view.config.timeConfig.Some? && Resolver.Detect(env.run).Err?) && after == before
    case WeatherS(c0, w0) =>
      r == Ok(()) && after == WeatherS(Weather.CacheAfterInit(c0, env.view, env.now, env.api), w0)
  }

  /** `Trigger::evaluate` dispatched on the trigger kind. */
  method EvaluateAny(t: AnyTrigger, env: Env) returns (r: Evaluation)
    requires t.DayTimeT? ==> DayTimeReady(env)
    modifies t.Obj()
    ensures Evaluates(old(SnapshotOf(t)), SnapshotOf(t), env, r)
    ensures r.Ok? && r.value.Some? ==> !r.value.value.IsEmpty()
  {
    match t
    case StaticT(s) => r := s.Evaluate(env.view, env.run, env.dirs);
    case DayTimeT(d) => r := d.Evaluate(env.view, env.run, env.hour, env.dirs);
    case WeatherT(w) => r := w.Evaluate(env.view, env.run, env.now, env.api, env.dirs);
  }

  /** `Trigger::init` dispatched on the trigger kind. */
  method InitAny(t: AnyTrigger, env: Env) returns (r: Result<()>)
    requires t.DayTimeT? ==> DayTimeReady(env)
    modifies t.Obj()
    ensures Initialises(old(SnapshotOf(t)), SnapshotOf(t), env, r)
  {
    match t
    case StaticT(s) => r := s.Init();
    case DayTimeT(d) => r := d.Init(env.view, env.run);
    case WeatherT(w) => r := w.Init(env.view, env.now, env.api);
  }

  /** `apply` of one batch from the tracker state `s`; the batch's last launch error is in `lastErr`. */
  function ApplyBatch(b: TriggerResult, launch: seq<string> -> Apply.SpawnOutcome, s: Apply.ApplyState): Apply.ApplyState {
    Apply.Run(b.changes, launch, Apply.ApplyState(s.procs, s.log, None))
  }

  /** What `apply` returns for a batch that ended in state `s`. */
  function Reported(s: Apply.ApplyState): Result<()> {
    if s.lastErr.Some? then Err(s.lastErr.value) else Ok(())
  }

  /** The tracker state after applying `batches` in order from `s`. */
  function AfterBatches(batches: seq<TriggerResult>, launch: seq<string> -> Apply.SpawnOutcome, s: Apply.ApplyState): Apply.ApplyState {
    if batches == [] then s
    else ApplyBatch(batches[|batches| - 1], launch, AfterBatches(batches[..|batches| - 1], launch, s))
  }

  /** What `apply` returned for each of `batches`, applied in order from `s`. */
  function Reports(batches: seq<TriggerResult>, launch: seq<string> -> Apply.SpawnOutcome, s: Apply.ApplyState): (rs: seq<Result<()>>)
    ensures |rs| == |batches|
  {
    if batches == [] then []
    else
      var init := batches[..|batches| - 1];
      Reports(init, launch, s) + [Reported(ApplyBatch(batches[|batches| - 1], launch, AfterBatches(init, launch, s)))]
  }

  /** Applying one more batch continues the fold from where it stood, and adds that batch's report. */
  lemma BatchAppended(batches: seq<TriggerResult>, b: TriggerResult, launch: seq<string> -> Apply.SpawnOutcome, s: Apply.ApplyState)
    ensures AfterBatches(batches + [b], launch, s) == ApplyBatch(b, launch, AfterBatches(batches, launch, s))
    ensures Reports(batches + [b], launch, s) == Reports(batches, launch, s) + [Reported(AfterBatches(batches + [b], launch, s))]
  {
    assert (batches + [b])[..|batches|] == batches;
  }

  /** A batch is reported as failed exactly when one of its launches failed; a failure never stops the batch. */
  lemma BatchFailsIffLaunchFails(b: TriggerResult, launch: seq<string> -> Apply.SpawnOutcome, s: Apply.ApplyState)
    ensures Reported(ApplyBatch(b, launch, s)).Err? <==>
      exists i :: 0 <= i < |b.changes| && Apply.OutcomeAt(b.changes, launch, i).SpawnFailed?
  {
    Apply.RunLastError(b.changes, launch, Apply.ApplyState(s.procs, s.log, None));
  }

  /** Every handle killed while applying the batches of a pass is also reaped. */
  lemma {:induction false} BatchesReap(batches: seq<TriggerResult>, launch: seq<string> -> Apply.SpawnOutcome, s: Apply.ApplyState)
    requires Wallpaper.KillsReaped(s.log)
    ensures Wallpaper.KillsReaped(AfterBatches(batches, launch, s).log)
    decreases |batches|
  {
    if batches != [] {
      var pre := AfterBatches(batches[..|batches| - 1], launch, s);
      BatchesReap(batches[..|batches| - 1], launch, s);
      Apply.RunReaps(batches[|batches| - 1].changes, launch, Apply.ApplyState(pre.procs, pre.log, None));
    }
  }

  /** A trigger object is never the process tracker. */
  lemma ObjIsNotTracker(t: AnyTrigger, tracker: Wallpaper.ProcessTracker)
    ensures t.Obj() != tracker
  {
  }

  /** No trigger object is registered twice: the manager owns each of its boxed triggers. */
  predicate DistinctObjects(ts: seq<Scheduled>) {
    forall a, b :: 0 <= a < b < |ts| ==> ts[a].trigger.Obj() != ts[b].trigger.Obj()
  }

  function ObjectsOf(ts: seq<Scheduled>): set<object> {
    set i | 0 <= i < |ts| :: ts[i].trigger.Obj()
  }

  predicate HasDayTimeIn(ts: seq<Scheduled>) {
    exists i :: 0 <= i < |ts| && ts[i].trigger.DayTimeT?
  }

  /** A pass keeps the registered triggers, so it keeps the objects and kinds. */
  lemma RescheduledKeepsTriggers(ts: seq<Scheduled>, now: int)
    ensures ObjectsOf(Rescheduled(ts, now)) == ObjectsOf(ts)
    ensures HasDayTimeIn(Rescheduled(ts, now)) == HasDayTimeIn(ts)
    ensures DistinctObjects(Rescheduled(ts, now)) == DistinctObjects(ts)
  {
    var ts' := Rescheduled(ts, now);
    assert forall i :: 0 <= i < |ts| ==> ts'[i].trigger == ts[i].trigger;
    forall o | o in ObjectsOf(ts)
      ensures o in ObjectsOf(ts')
    {
      var i :| 0 <= i < |ts| && ts[i].trigger.Obj() == o;
      assert ts'[i].trigger.Obj() == o;
    }
    if HasDayTimeIn(ts) {
      var i :| 0 <= i < |ts| && ts[i].trigger.DayTimeT?;
      assert ts'[i].trigger.DayTimeT?;
    }
  }

  /** A trigger whose object did not change is in the same state. */
  twostate lemma SnapshotUnchanged(t: AnyTrigger)
    requires unchanged(t.Obj())
    ensures SnapshotOf(t) == old(SnapshotOf(t))
  {
  }

  /** One due trigger of a pass: evaluate it, and hand a produced batch to `apply`. */
  method Fire(t: AnyTrigger, env: Env, tracker: Wallpaper.ProcessTracker)
    returns (outcome: Evaluation, applied: Option<Result<()>>, ghost before: Snapshot, ghost after: Snapshot)
    requires t.DayTimeT? ==> DayTimeReady(env)
    requires tracker.Valid()
    modifies t.Obj(), tracker
    ensures tracker.Valid()
    ensures before == old(SnapshotOf(t)) && after == SnapshotOf(t)
    ensures forall r :: r == outcome ==> Evaluates(before, after, env, r)
    ensures outcome.Ok? && outcome.value.Some? ==> !outcome.value.value.IsEmpty()
    ensures applied.Some? <==> outcome.Ok? && outcome.value.Some?
    ensures applied.Some? ==>
      var s := ApplyBatch(outcome.value.value, env.launch, Apply.ApplyState(old(tracker.procs), old(tracker.events), None));
      tracker.procs == s.procs && tracker.events == s.log && applied.value == Reported(s)
    ensures applied.None? ==> tracker.procs == old(tracker.procs) && tracker.events == old(tracker.events)
  {
    before := SnapshotOf(t);
    outcome := EvaluateAny(t, env);
    after := SnapshotOf(t);
    applied := None;
    if outcome.Ok? && outcome.value.Some? {
      var a, _ := Apply.Apply(outcome.value.value, env.launch, tracker);
      applied := Some(a);
    }
  }

  /** `Fire` on the `i`-th trigger of `ts`: the other triggers keep the states recorded in `snaps`. */
  method FireAt(ts: seq<Scheduled>, i: int, env: Env, tracker: Wallpaper.ProcessTracker, ghost snaps: seq<Snapshot>)
    returns (outcome: Evaluation, applied: Option<Result<()>>, ghost after: Snapshot)
    requires 0 <= i < |ts| == |snaps|
    requires ts[i].trigger.DayTimeT? ==> DayTimeReady(env)
    requires DistinctObjects(ts) && tracker.Valid()
    requires forall j :: 0 <= j < |ts| ==> snaps[j] == SnapshotOf(ts[j].trigger)
    modifies ts[i].trigger.Obj(), tracker
    ensures tracker.Valid()
    ensures forall j :: 0 <= j < |ts| ==> snaps[i := after][j] == SnapshotOf(ts[j].trigger)
    ensures forall r :: r == outcome ==> Evaluates(snaps[i], after, env, r)
    ensures outcome.Ok? && outcome.value.Some? ==> !outcome.value.value.IsEmpty()
    ensures applied.Some? <==> outcome.Ok? && outcome.value.Some?
    ensures applied.Some? ==>
      var s := ApplyBatch(outcome.value.value, env.launch, Apply.ApplyState(old(tracker.procs), old(tracker.events), None));
      tracker.procs == s.procs && tracker.events == s.log && applied.value == Reported(s)
    ensures applied.None? ==> tracker.procs == old(tracker.procs) && tracker.events == old(tracker.events)
  {
    ghost var before;
    outcome, applied, before, after := Fire(ts[i].trigger, env, tracker);
    forall j | 0 <= j < |ts| && j != i
      ensures snaps[j] == SnapshotOf(ts[j].trigger)
    {
      assert ts[j].trigger.Obj() != ts[i].trigger.Obj();
      SnapshotUnchanged(ts[j].trigger);
    }
  }

  /**
   * What one pass reports: the positions it evaluated, their outcomes, the
   * batches it handed to `apply` and what `apply` returned for each.
   */
  datatype PassRecord = PassRecord(evaluated: seq<nat>, outcomes: seq<Evaluation>, batches: seq<TriggerResult>,
                                   applied: seq<Result<()>>)

  /**
   * One pass over the schedule `ts` at `env.now`: exactly the due triggers
   * were evaluated, in order, each taking its state from `before` to `after`
   * as its kind's `evaluate` specifies, and every other trigger kept its
   * state; the produced batches were applied in order, taking the tracker
   * from `start` to `end`.
   */
  ghost predicate PassSpec(ts: seq<Scheduled>, env: Env, before: seq<Snapshot>, after: seq<Snapshot>,
                           start: Apply.ApplyState, end: Apply.ApplyState, p: PassRecord)
  {
    && p.evaluated == DueIndices(ts, env.now)
    && |p.outcomes| == |p.evaluated|
    && |before| == |after| == |ts|
    && (forall k :: 0 <= k < |p.evaluated| ==> Evaluates(before[p.evaluated[k]], after[p.evaluated[k]], env, p.outcomes[k]))
    && (forall j :: 0 <= j < |ts| && !IsDue(ts[j], env.now) ==> after[j] == before[j])
    && (forall k :: 0 <= k < |p.outcomes| && p.outcomes[k].Ok? && p.outcomes[k].value.Some? ==> !p.outcomes[k].value.value.IsEmpty())
    && p.batches == Batches(p.outcomes)
    && p.applied == Reports(p.batches, env.launch, start)
    && end.procs == AfterBatches(p.batches, env.launch, start).procs
    && end.log == AfterBatches(p.batches, env.launch, start).log
  }

  /**
   * The triggers at the positions `evaluated`, all before `i`, went from
   * `snaps0` to `snaps` returning `outcomes`; no outcome is an empty batch.
   */
  ghost predicate Recorded(env: Env, i: int, snaps0: seq<Snapshot>, snaps: seq<Snapshot>, evaluated: seq<nat>,
                           outcomes: seq<Evaluation>)
  {
    && |snaps0| == |snaps|
    && |outcomes| == |evaluated|
    && (forall k :: 0 <= k < |evaluated| ==> evaluated[k] < i)
    && (forall k :: 0 <= k < |evaluated| ==> evaluated[k] < |snaps|)
    && (forall k :: 0 <= k < |evaluated| ==> Evaluates(snaps0[evaluated[k]], snaps[evaluated[k]], env, outcomes[k]))
    && (forall k :: 0 <= k < |outcomes| && outcomes[k].Ok? && outcomes[k].value.Some? ==> !outcomes[k].value.value.IsEmpty())
  }

  /**
   * What a pass has done after visiting the first `i` of `ts`: rescheduled
   * them into `next`, evaluated the due ones (`snaps0` holds every trigger's
   * state before the pass, `snaps` its state now), and applied the batches
   * they produced from the tracker state `start`.
   */
  ghost predicate PassSoFar(ts: seq<Scheduled>, env: Env, start: Apply.ApplyState, i: int, next: seq<Scheduled>,
                            snaps0: seq<Snapshot>, snaps: seq<Snapshot>, evaluated: seq<nat>,
                            outcomes: seq<Evaluation>, batches: seq<TriggerResult>, applied: seq<Result<()>>)
  {
    && 0 <= i <= |ts|
    && next == Rescheduled(ts[..i], env.now)
    && |snaps0| == |snaps| == |ts|
    && (forall j :: 0 <= j < |ts| && (i <= j || !IsDue(ts[j], env.now)) ==> snaps[j] == snaps0[j])
    && evaluated == DueIndices(ts[..i], env.now)
    && Recorded(env, i, snaps0, snaps, evaluated, outcomes)
    && batches == Batches(outcomes)
    && applied == Reports(batches, env.launch, start)
  }

  /** Before any trigger is visited nothing has been done. */
  lemma PassStarts(ts: seq<Scheduled>, env: Env, start: Apply.ApplyState, snaps0: seq<Snapshot>)
    requires |snaps0| == |ts|
    ensures PassSoFar(ts, env, start, 0, [], snaps0, snaps0, [], [], [], [])
  {
    assert ts[..0] == [];
  }

  /** After every trigger is visited, the pass has rescheduled all of `ts` and done what `PassSpec` says. */
  lemma PassEnds(ts: seq<Scheduled>, env: Env, start: Apply.ApplyState, next: seq<Scheduled>,
                 snaps0: seq<Snapshot>, snaps: seq<Snapshot>, evaluated: seq<nat>,
                 outcomes: seq<Evaluation>, batches: seq<TriggerResult>, applied: seq<Result<()>>)
    requires PassSoFar(ts, env, start, |ts|, next, snaps0, snaps, evaluated, outcomes, batches, applied)
    ensures next == Rescheduled(ts, env.now)
    ensures var s := AfterBatches(batches, env.launch, start);
      PassSpec(ts, env, snaps0, snaps, start, Apply.ApplyState(s.procs, s.log, None),
               PassRecord(evaluated, outcomes, batches, applied))
  {
    assert ts[..|ts|] == ts;
  }

  /** Visiting one more trigger extends the schedule by its advanced entry and the due list by its position when due. */
  lemma ScheduleStep(ts: seq<Scheduled>, now: int, i: int)
    requires 0 <= i < |ts|
    ensures Rescheduled(ts[..i + 1], now) == Rescheduled(ts[..i], now) + [Advance(ts[i], now)]
    ensures DueIndices(ts[..i + 1], now) == DueIndices(ts[..i], now) + (if IsDue(ts[i], now) then [i] else [])
  {
    assert ts[..i + 1][..i] == ts[..i];
  }

  /** Recording one more evaluation keeps every recorded evaluation true of the snapshots. */
  lemma EvaluationsStep(env: Env, i: int, snaps0: seq<Snapshot>, snaps: seq<Snapshot>, evaluated: seq<nat>,
                        outcomes: seq<Evaluation>, outcome: Evaluation, after: Snapshot)
    requires 0 <= i < |snaps0| == |snaps|
    requires Recorded(env, i, snaps0, snaps, evaluated, outcomes)
    requires Evaluates(snaps0[i], after, env, outcome)
    requires outcome.Ok? && outcome.value.Some? ==> !outcome.value.value.IsEmpty()
    ensures Recorded(env, i + 1, snaps0, snaps[i := after], evaluated + [i], outcomes + [outcome])
  {
    var evaluated', snaps', outcomes' := evaluated + [i], snaps[i := after], outcomes + [outcome];
    forall k | 0 <= k < |evaluated'|
      ensures Evaluates(snaps0[evaluated'[k]], snaps'[evaluated'[k]], env, outcomes'[k])
    {
      if k < |evaluated| {
        assert evaluated'[k] == evaluated[k] < i;
        assert Evaluates(snaps0[evaluated[k]], snaps[evaluated[k]], env, outcomes[k]);
      }
    }
  }

  /** One more outcome adds its batch, if it produced one, and that batch's report. */
  lemma BatchesStep(outcomes: seq<Evaluation>, outcome: Evaluation, launch: seq<string> -> Apply.SpawnOutcome,
                    start: Apply.ApplyState, batches: seq<TriggerResult>, applied: seq<Result<()>>)
    requires batches == Batches(outcomes) && applied == Reports(batches, launch, start)
    ensures var produced := outcome.Ok? && outcome.value.Some?;
      var batches' := if produced then batches + [outcome.value.value] else batches;
      var applied' := if produced then applied + [Reported(AfterBatches(batches', launch, start))] else applied;
      Batches(outcomes + [outcome]) == batches' && Reports(batches', launch, start) == applied'
  {
    assert (outcomes + [outcome])[..|outcomes|] == outcomes;
    if outcome.Ok? && outcome.value.Some? {
      BatchAppended(batches, outcome.value.value, launch, start);
    }
  }

  /** Visiting a trigger that is not due only reschedules it (which leaves it as it is). */
  lemma SkipStep(ts: seq<Scheduled>, env: Env, start: Apply.ApplyState, i: int, next: seq<Scheduled>,
                 snaps0: seq<Snapshot>, snaps: seq<Snapshot>, evaluated: seq<nat>,
                 outcomes: seq<Evaluation>, batches: seq<TriggerResult>, applied: seq<Result<()>>)
    requires PassSoFar(ts, env, start, i, next, snaps0, snaps, evaluated, outcomes, batches, applied)
    requires i < |ts| && !IsDue(ts[i], env.now)
    ensures PassSoFar(ts, env, start, i + 1, next + [Advance(ts[i], env.now)], snaps0, snaps, evaluated, outcomes, batches, applied)
  {
    ScheduleStep(ts, env.now, i);
  }

  /** Visiting a due trigger records its evaluation and, when it produced a batch, the batch and its report. */
  lemma FireStep(ts: seq<Scheduled>, env: Env, start: Apply.ApplyState, i: int, next: seq<Scheduled>,
                 snaps0: seq<Snapshot>, snaps: seq<Snapshot>, evaluated: seq<nat>,
                 outcomes: seq<Evaluation>, batches: seq<TriggerResult>, applied: seq<Result<()>>,
                 outcome: Evaluation, after: Snapshot)
    requires PassSoFar(ts, env, start, i, next, snaps0, snaps, evaluated, outcomes, batches, applied)
    requires i < |ts| && IsDue(ts[i], env.now)
    requires Evaluates(snaps0[i], after, env, outcome)
    requires outcome.Ok? && outcome.value.Some? ==> !outcome.value.value.IsEmpty()
    ensures var produced := outcome.Ok? && outcome.value.Some?;
      var batches' := if produced then batches + [outcome.value.value] else batches;
      var applied' := if produced then applied + [Reported(AfterBatches(batches', env.launch, start))] else applied;
      PassSoFar(ts, env, start, i + 1, next + [Advance(ts[i], env.now)], snaps0, snaps[i := after],
                evaluated + [i], outcomes + [outcome], batches', applied')
  {
    ScheduleStep(ts, env.now, i);
    EvaluationsStep(env, i, snaps0, snaps, evaluated, outcomes, outcome, after);
    BatchesStep(outcomes, outcome, env.launch, start, batches, applied);
  }

  /**
   * The body of the pass loop for the trigger at position `i`: fire it when
   * it is due, record what happened, and reschedule it.
   */
  method Visit(ts: seq<Scheduled>, i: int, env: Env, tracker: Wallpaper.ProcessTracker, ghost start: Apply.ApplyState,
               next: seq<Scheduled>, ghost snaps0: seq<Snapshot>, ghost snaps: seq<Snapshot>, evaluated: seq<nat>,
               outcomes: seq<Evaluation>, batches: seq<TriggerResult>, applied: seq<Result<()>>)
    returns (next': seq<Scheduled>, ghost snaps': seq<Snapshot>, evaluated': seq<nat>,
             outcomes': seq<Evaluation>, batches': seq<TriggerResult>, applied': seq<Result<()>>)
    requires PassSoFar(ts, env, start, i, next, snaps0, snaps, evaluated, outcomes, batches, applied) && i < |ts|
    requires ts[i].trigger.DayTimeT? ==> DayTimeReady(env)
    requires DistinctObjects(ts) && ts[i].trigger.Obj() != tracker
    requires tracker.Valid()
    requires forall j :: 0 <= j < |ts| ==> snaps[j] == SnapshotOf(ts[j].trigger)
    requires tracker.procs == AfterBatches(batches, env.launch, start).procs
    requires tracker.events == AfterBatches(batches, env.launch, start).log
    modifies ts[i].trigger.Obj(), tracker
    ensures PassSoFar(ts, env, start, i + 1, next', snaps0, snaps', evaluated', outcomes', batches', applied')
    ensures tracker.Valid()
    ensures forall j :: 0 <= j < |ts| ==> snaps'[j] == SnapshotOf(ts[j].trigger)
    ensures tracker.procs == AfterBatches(batches', env.launch, start).procs
    ensures tracker.events == AfterBatches(batches', env.launch, start).log
  {
    var s := ts[i];
    next', snaps', evaluated', outcomes', batches', applied' := next + [Advance(s, env.now)], snaps, evaluated, outcomes, batches, applied;
    if env.now >= s.nextRun {
      var outcome, a, after := FireAt(ts, i, env, tracker, snaps);
      FireStep(ts, env, start, i, next, snaps0, snaps, evaluated, outcomes, batches, applied, outcome, after);
      snaps' := snaps[i := after];
      outcomes' := outcomes + [outcome];
      if a.Some? {
        batches' := batches + [outcome.value.value];
        applied' := applied + [a.value];
      }
      evaluated' := evaluated + [i];
    } else {
      SkipStep(ts, env, start, i, next, snaps0, snaps, evaluated, outcomes, batches, applied);
    }
  }

  /**
   * The loop of a pass over `ts`: visit every trigger in registration order,
   * starting from the tracker state `start` and the trigger states `snaps0`.
   */
  method VisitAll(ts: seq<Scheduled>, env: Env, tracker: Wallpaper.ProcessTracker, ghost start: Apply.ApplyState,
                  ghost snaps0: seq<Snapshot>)
    returns (next: seq<Scheduled>, evaluated: seq<nat>, outcomes: seq<Evaluation>, batches: seq<TriggerResult>,
             applied: seq<Result<()>>, ghost snaps: seq<Snapshot>)
    requires HasDayTimeIn(ts) ==> DayTimeReady(env)
    requires DistinctObjects(ts) && tracker.Valid()
    requires forall j :: 0 <= j < |ts| ==> ts[j].trigger.Obj() != tracker
    requires |snaps0| == |ts| && forall j :: 0 <= j < |ts| ==> snaps0[j] == SnapshotOf(ts[j].trigger)
    requires tracker.procs == start.procs && tracker.events == start.log && start.lastErr.None?
    modifies ObjectsOf(ts), tracker
    ensures PassSoFar(ts, env, start, |ts|, next, snaps0, snaps, evaluated, outcomes, batches, applied)
    ensures tracker.Valid()
    ensures forall j :: 0 <= j < |ts| ==> snaps[j] == SnapshotOf(ts[j].trigger)
    ensures tracker.procs == AfterBatches(batches, env.launch, start).procs
    ensures tracker.events == AfterBatches(batches, env.launch, start).log
  {
    snaps := snaps0;
    next := [];
    evaluated, outcomes, batches, applied := [], [], [], [];
    PassStarts(ts, env, start, snaps0);
    var i := 0;
    while i < |ts|
      invariant PassSoFar(ts, env, start, i, next, snaps0, snaps, evaluated, outcomes, batches, applied)
      invariant tracker.Valid()
      invariant forall j :: 0 <= j < |ts| ==> snaps[j] == SnapshotOf(ts[j].trigger)
      invariant tracker.procs == AfterBatches(batches, env.launch, start).procs
      invariant tracker.events == AfterBatches(batches, env.launch, start).log
    {
      assert ts[i].trigger.DayTimeT? ==> HasDayTimeIn(ts);
      next, snaps, evaluated, outcomes, batches, applied :=
        Visit(ts, i, env, tracker, start, next, snaps0, snaps, evaluated, outcomes, batches, applied);
      i := i + 1;
    }
  }

  class TriggerManager {
    var triggers: seq<Scheduled>

    constructor ()
      ensures triggers == []
    {
      triggers := [];
    }

    /** The trigger objects a pass may change. */
    function Objects(): set<object>
      reads this
    {
      ObjectsOf(triggers)
    }

    predicate HasDayTime()
      reads this
    {
      HasDayTimeIn(triggers)
    }

    predicate Distinct()
      reads this
    {
      DistinctObjects(triggers)
    }

    /** `add`: appended, due at once. */
    method Add(t: AnyTrigger, now: int)
      modifies this
      ensures triggers == old(triggers) + [Scheduled(t, now)]
      ensures IsDue(triggers[|triggers| - 1], now)
      ensures old(Distinct()) && t.Obj() !in old(Objects()) ==> Distinct()
    {
      triggers := triggers + [Scheduled(t, now)];
      assert forall a :: 0 <= a < |old(triggers)| ==> old(triggers)[a].trigger.Obj() in old(Objects());
    }

    /** The init phase of `run`: every trigger's `init`, once, in order; failures are only reported. */
    method InitAll(env: Env) returns (results: seq<Result<()>>)
      requires HasDayTime() ==> DayTimeReady(env)
      requires Distinct()
      modifies Objects()
      ensures triggers == old(triggers)
      ensures |results| == |triggers|
      ensures forall i :: 0 <= i < |triggers| ==>
        Initialises(old(SnapshotOf(triggers[i].trigger)), SnapshotOf(triggers[i].trigger), env, results[i])
    {
      results := [];
      var i := 0;
      while i < |triggers|
        invariant 0 <= i <= |triggers|
        invariant |results| == i
        invariant forall j :: i <= j < |triggers| ==> SnapshotOf(triggers[j].trigger) == old(SnapshotOf(triggers[j].trigger))
        invariant forall j :: 0 <= j < i ==>
          Initialises(old(SnapshotOf(triggers[j].trigger)), SnapshotOf(triggers[j].trigger), env, results[j])
      {
        var t := triggers[i].trigger;
        var r := InitAny(t, env);
        results := results + [r];
        i := i + 1;
      }
    }

    /**
     * One pass of the `run` loop at `env.now`: evaluates the due triggers in
     * order, applies every produced batch, reschedules every evaluated
     * trigger. `evaluated` lists the positions evaluated, `outcomes` their
     * results, `batches` what was handed to `apply` and `applied` what it
     * returned for each.
     */
    method Pass(env: Env, tracker: Wallpaper.ProcessTracker)
      returns (evaluated: seq<nat>, outcomes: seq<Evaluation>, batches: seq<TriggerResult>, applied: seq<Result<()>>,
               ghost snaps0: seq<Snapshot>, ghost snaps: seq<Snapshot>)
      requires HasDayTime() ==> DayTimeReady(env)
      requires Distinct()
      requires tracker.Valid()
      modifies this, Objects(), tracker
      ensures tracker.Valid()
      ensures triggers == Rescheduled(old(triggers), env.now)
      ensures |snaps0| == |snaps| == |triggers|
      ensures forall j :: 0 <= j < |triggers| ==> snaps0[j] == old(SnapshotOf(triggers[j].trigger))
      ensures forall j :: 0 <= j < |triggers| ==> snaps[j] == SnapshotOf(triggers[j].trigger)
      ensures PassSpec(old(triggers), env, snaps0, snaps,
                       Apply.ApplyState(old(tracker.procs), old(tracker.events), None),
                       Apply.ApplyState(tracker.procs, tracker.events, None),
                       PassRecord(evaluated, outcomes, batches, applied))
    {
      ghost var start := Apply.ApplyState(tracker.procs, tracker.events, None);
      var ts := triggers;
      // The state of every trigger, as it was and as it is now.
      snaps0 := seq(|ts|, j requires 0 <= j < |ts| reads ObjectsOf(ts) => SnapshotOf(ts[j].trigger));
      forall j | 0 <= j < |ts|
        ensures ts[j].trigger.Obj() != tracker
      {
        ObjIsNotTracker(ts[j].trigger, tracker);
      }
      var next;
      next, evaluated, outcomes, batches, applied, snaps := VisitAll(ts, env, tracker, start, snaps0);
      PassEnds(ts, env, start, next, snaps0, snaps, evaluated, outcomes, batches, applied);
      triggers := next;
    }

    /**
     * One iteration of the `run` loop: a pass, whose results `run` only
     * logs; `before` and `after` are the trigger states around it.
     */
    method Tick(env: Env, tracker: Wallpaper.ProcessTracker)
      returns (ghost before: seq<Snapshot>, ghost after: seq<Snapshot>, ghost record: PassRecord)
      requires HasDayTime() ==> DayTimeReady(env)
      requires Distinct()
      requires tracker.Valid()
      modifies this, Objects(), tracker
      ensures tracker.Valid()
      ensures triggers == Rescheduled(old(triggers), env.now)
      ensures Objects() == old(Objects()) && HasDayTime() == old(HasDayTime()) && Distinct()
      ensures |before| == |after| == |triggers|
      ensures forall j :: 0 <= j < |triggers| ==> before[j] == old(SnapshotOf(triggers[j].trigger))
      ensures forall j :: 0 <= j < |triggers| ==> after[j] == SnapshotOf(triggers[j].trigger)
      ensures PassSpec(old(triggers), env, before, after,
                       Apply.ApplyState(old(tracker.procs), old(tracker.events), None),
                       Apply.ApplyState(tracker.procs, tracker.events, None), record)
    {
      ghost var ts := triggers;
      var evaluated, outcomes, batches, applied;
      evaluated, outcomes, batches, applied, before, after := Pass(env, tracker);
      record := PassRecord(evaluated, outcomes, batches, applied);
      RescheduledKeepsTriggers(ts, env.now);
    }

    /**
     * `run`: the init phase, then one pass per entry of `passes` (the loop
     * itself never ends). Every pass happens whatever the outcomes.
     * `initResults` are the `init` results; `schedule` lists the schedule
     * after each pass. The ghost results record the run: `initial` holds the
     * trigger states before init, `states[k]` those before pass `k` (and
     * after the last pass for `k == |passes|`), `trackers[k]` the tracker
     * before pass `k`, and `records[k]` what pass `k` reported.
     */
    method Run(initEnv: Env, passes: seq<Env>, tracker: Wallpaper.ProcessTracker)
      returns (initResults: seq<Result<()>>, schedule: seq<seq<Scheduled>>, ghost initial: seq<Snapshot>,
               ghost states: seq<seq<Snapshot>>, ghost trackers: seq<Apply.ApplyState>, ghost records: seq<PassRecord>)
      requires HasDayTime() ==> DayTimeReady(initEnv) && forall k :: 0 <= k < |passes| ==> DayTimeReady(passes[k])
      requires Distinct()
      requires tracker.Valid()
      modifies this, Objects(), tracker
      ensures tracker.Valid()
      ensures schedule == Schedules(old(triggers), passes)
      ensures triggers == Latest(old(triggers), schedule)
      // The init phase: every trigger initialised once, in order.
      ensures |initial| == |initResults| == |old(triggers)|
      ensures |states| == |passes| + 1 && |states[0]| == |initial|
      ensures forall j :: 0 <= j < |initial| ==> initial[j] == old(SnapshotOf(triggers[j].trigger))
      ensures forall j :: 0 <= j < |initial| ==> Initialises(initial[j], states[0][j], initEnv, initResults[j])
      // Each pass starts from the schedule, trigger states and tracker the previous one left.
      ensures PassesRecorded(old(triggers), passes, schedule, states, trackers, records)
      ensures trackers[0] == Apply.ApplyState(old(tracker.procs), old(tracker.events), None)
      // The state the run leaves.
      ensures |states[|passes|]| == |triggers|
      ensures forall j :: 0 <= j < |triggers| ==> states[|passes|][j] == SnapshotOf(triggers[j].trigger)
      ensures tracker.procs == trackers[|passes|].procs && tracker.events == trackers[|passes|].log
    {
      ghost var ts0 := triggers;
      initial := seq(|ts0|, j requires 0 <= j < |ts0| reads ObjectsOf(ts0) => SnapshotOf(ts0[j].trigger));
      initResults := InitAll(initEnv);
      ghost var afterInit := seq(|ts0|, j requires 0 <= j < |ts0| reads ObjectsOf(ts0) => SnapshotOf(ts0[j].trigger));
      schedule, states, trackers, records :=
        RunPasses(passes, tracker, afterInit, Apply.ApplyState(tracker.procs, tracker.events, None));
    }

    /**
     * The passes of `run`, from the trigger states `snaps` and the tracker
     * state `at` that the init phase left.
     */
    method RunPasses(passes: seq<Env>, tracker: Wallpaper.ProcessTracker, ghost snaps: seq<Snapshot>, ghost at: Apply.ApplyState)
      returns (schedule: seq<seq<Scheduled>>, ghost states: seq<seq<Snapshot>>, ghost trackers: seq<Apply.ApplyState>,
               ghost records: seq<PassRecord>)
      requires HasDayTime() ==> forall k :: 0 <= k < |passes| ==> DayTimeReady(passes[k])
      requires Distinct()
      requires tracker.Valid()
      requires Current(snaps, at, tracker)
      modifies this, Objects(), tracker
      ensures tracker.Valid()
      ensures Running(old(triggers), passes, schedule, states, trackers, records, tracker)
      ensures states[0] == snaps && trackers[0] == at
    {
      ghost var objs := Objects();
      ghost var ts0 := triggers;
      states, trackers, records := [snaps], [at], [];
      schedule := [];
      RunningStart(ts0, passes[..0], snaps, at, tracker);
      var k := 0;
      while k < |passes|
        invariant 0 <= k <= |passes|
        invariant tracker.Valid()
        invariant Objects() == objs && HasDayTime() == old(HasDayTime()) && Distinct()
        invariant Running(ts0, passes[..k], schedule, states, trackers, records, tracker)
        invariant states[0] == snaps && trackers[0] == at
      {
        assert passes[..k + 1] == passes[..k] + [passes[k]];
        schedule, states, trackers, records :=
          RunPass(passes[k], tracker, ts0, passes[..k], passes[..k + 1], schedule, states, trackers, records);
        k := k + 1;
      }
      RunningAs(ts0, passes[..k], passes, schedule, states, trackers, records, tracker);
    }

    /** Before its first pass, a run has recorded only the current states. */
    lemma RunningStart(ts0: seq<Scheduled>, done: seq<Env>, snaps: seq<Snapshot>, at: Apply.ApplyState,
                       tracker: Wallpaper.ProcessTracker)
      requires triggers == ts0 && done == [] && Current(snaps, at, tracker)
      ensures Running(ts0, done, [], [snaps], [at], [], tracker)
    {
    }

    /** The record of a run depends on the passes done, not on how they are written. */
    lemma RunningAs(ts0: seq<Scheduled>, done: seq<Env>, done': seq<Env>, schedule: seq<seq<Scheduled>>,
                    states: seq<seq<Snapshot>>, trackers: seq<Apply.ApplyState>, records: seq<PassRecord>,
                    tracker: Wallpaper.ProcessTracker)
      requires Running(ts0, done, schedule, states, trackers, records, tracker)
      requires done == done'
      ensures Running(ts0, done', schedule, states, trackers, records, tracker)
    {
    }

    /**
     * A run from the schedule `ts0` has done the passes `done`: `schedule`,
     * `states`, `trackers` and `records` record them, and the last trigger
     * states and tracker recorded are the current ones.
     */
    ghost predicate Running(ts0: seq<Scheduled>, done: seq<Env>, schedule: seq<seq<Scheduled>>, states: seq<seq<Snapshot>>,
                            trackers: seq<Apply.ApplyState>, records: seq<PassRecord>, tracker: Wallpaper.ProcessTracker)
      reads this, Objects(), tracker
    {
      && schedule == Schedules(ts0, done)
      && triggers == Latest(ts0, schedule)
      && PassesRecorded(ts0, done, schedule, states, trackers, records)
      && Current(states[|done|], trackers[|done|], tracker)
    }

    /** `snaps` and `at` are the current states of the triggers and of `tracker`. */
    ghost predicate Current(snaps: seq<Snapshot>, at: Apply.ApplyState, tracker: Wallpaper.ProcessTracker)
      reads this, Objects(), tracker
    {
      && |snaps| == |triggers|
      && (forall j :: 0 <= j < |triggers| ==> snaps[j] == SnapshotOf(triggers[j].trigger))
      && at == Apply.ApplyState(tracker.procs, tracker.events, None)
    }

    /** One pass of `run` at `env`, extending the record of the passes `done` before it to `done'`. */
    method RunPass(env: Env, tracker: Wallpaper.ProcessTracker, ghost ts0: seq<Scheduled>, ghost done: seq<Env>,
                   ghost done': seq<Env>, schedule: seq<seq<Scheduled>>, ghost states: seq<seq<Snapshot>>,
                   ghost trackers: seq<Apply.ApplyState>, ghost records: seq<PassRecord>)
      returns (schedule': seq<seq<Scheduled>>, ghost states': seq<seq<Snapshot>>,
               ghost trackers': seq<Apply.ApplyState>, ghost records': seq<PassRecord>)
      requires HasDayTime() ==> DayTimeReady(env)
      requires Distinct()
      requires tracker.Valid()
      requires Running(ts0, done, schedule, states, trackers, records, tracker)
      requires done' == done + [env]
      modifies this, Objects(), tracker
      ensures tracker.Valid()
      ensures Objects() == old(Objects()) && HasDayTime() == old(HasDayTime()) && Distinct()
      ensures Running(ts0, done', schedule', states', trackers', records', tracker)
      ensures states'[0] == states[0] && trackers'[0] == trackers[0]
    {
      ghost var before, after, record := Tick(env, tracker);
      assert before == states[|done|];
      RunStep(ts0, done, env, schedule, states, trackers, records, triggers, after,
              Apply.ApplyState(tracker.procs, tracker.events, None), record);
      schedule', states', trackers', records' := schedule + [triggers], states + [after],
        trackers + [Apply.ApplyState(tracker.procs, tracker.events, None)], records + [record];
    }
  }

  /**
   * The record of the passes `passes` of a run from the schedule `ts0`:
   * pass `k` starts from the schedule the earlier passes left, from the
   * trigger states `states[k]` and the tracker `trackers[k]`, and leaves
   * `states[k + 1]` and `trackers[k + 1]`, as `records[k]` reports.
   */
  ghost predicate PassesRecorded(ts0: seq<Scheduled>, passes: seq<Env>, schedule: seq<seq<Scheduled>>,
                                 states: seq<seq<Snapshot>>, trackers: seq<Apply.ApplyState>, records: seq<PassRecord>)
  {
    && |schedule| == |records| == |passes|
    && |states| == |trackers| == |passes| + 1
    && (forall k :: 0 <= k < |passes| ==>
          PassSpec(Latest(ts0, schedule[..k]), passes[k], states[k], states[k + 1], trackers[k], trackers[k + 1], records[k]))
  }

  /**
   * Appending the pass at `env` to the record of the passes `done` keeps
   * every earlier pass's record true, and its schedule is the next one
   * `run` lists.
   */
  lemma RunStep(ts0: seq<Scheduled>, done: seq<Env>, env: Env, schedule: seq<seq<Scheduled>>, states: seq<seq<Snapshot>>,
                trackers: seq<Apply.ApplyState>, records: seq<PassRecord>, next: seq<Scheduled>,
                after: seq<Snapshot>, end: Apply.ApplyState, record: PassRecord)
    requires schedule == Schedules(ts0, done)
    requires PassesRecorded(ts0, done, schedule, states, trackers, records)
    requires next == Rescheduled(Latest(ts0, schedule), env.now)
    requires PassSpec(Latest(ts0, schedule), env, states[|done|], after, trackers[|done|], end, record)
    ensures schedule + [next] == Schedules(ts0, done + [env])
    ensures PassesRecorded(ts0, done + [env], schedule + [next], states + [after], trackers + [end], records + [record])
  {
    SchedulesAppend(ts0, done, env);
    var passes, k := done + [env], |done|;
    var schedule', states', trackers', records' := schedule + [next], states + [after], trackers + [end], records + [record];
    forall k' | 0 <= k' < k + 1
      ensures PassSpec(Latest(ts0, schedule'[..k']), passes[k'], states'[k'], states'[k' + 1], trackers'[k'], trackers'[k' + 1], records'[k'])
    {
      if k' == k {
        assert schedule'[..k] == schedule;
      } else {
        RecordKept(ts0, done, schedule, states, trackers, records, k', next, after, end, record);
      }
    }
  }

  /** Pass `k` of `done` keeps its record when another pass is appended. */
  lemma RecordKept(ts0: seq<Scheduled>, done: seq<Env>, schedule: seq<seq<Scheduled>>, states: seq<seq<Snapshot>>,
                   trackers: seq<Apply.ApplyState>, records: seq<PassRecord>, k: nat, next: seq<Scheduled>,
                   after: seq<Snapshot>, end: Apply.ApplyState, record: PassRecord)
    requires k < |done|
    requires PassesRecorded(ts0, done, schedule, states, trackers, records)
    ensures var schedule', states', trackers', records' := schedule + [next], states + [after], trackers + [end], records + [record];
      PassSpec(Latest(ts0, schedule'[..k]), done[k], states'[k], states'[k + 1], trackers'[k], trackers'[k + 1], records'[k])
  {
    assert (schedule + [next])[..k] == schedule[..k];
  }

  /** The schedules after one more pass extend those before it by the pass's rescheduling. */
  lemma SchedulesAppend(ts: seq<Scheduled>, done: seq<Env>, env: Env)
    ensures Schedules(ts, done + [env]) == Schedules(ts, done) + [Rescheduled(Latest(ts, Schedules(ts, done)), env.now)]
  {
    assert (done + [env])[..|done|] == done;
  }

  /** The schedule in force after the passes recorded in `schedule`. */
  function Latest(ts: seq<Scheduled>, schedule: seq<seq<Scheduled>>): seq<Scheduled> {
    if schedule == [] then ts else schedule[|schedule| - 1]
  }

  /** The schedules after each pass of `run`, starting from `ts`. */
  function Schedules(ts: seq<Scheduled>, passes: seq<Env>): (schedule: seq<seq<Scheduled>>)
    ensures |schedule| == |passes|
  {
    if passes == [] then []
    else
      var pre := Schedules(ts, passes[..|passes| - 1]);
      pre + [Rescheduled(Latest(ts, pre), passes[|passes| - 1].now)]
  }

  /** Every pass of `run` reschedules from the previous pass's schedule. */
  lemma {:induction false} SchedulesStep(ts: seq<Scheduled>, passes: seq<Env>, k: int)
    requires 0 <= k < |passes|
    ensures Schedules(ts, passes)[k] == Rescheduled(if k == 0 then ts else Schedules(ts, passes)[k - 1], passes[k].now)
    decreases |passes|
  {
    var init := passes[..|passes| - 1];
    if k < |passes| - 1 {
      SchedulesStep(ts, init, k);
      assert init[k] == passes[k];
    }
  }

  /** A trigger never evaluated in a run keeps its time; the others are always due again later. */
  lemma {:induction false} SchedulesKeepTriggers(ts: seq<Scheduled>, passes: seq<Env>, k: int, i: int)
    requires 0 <= k < |passes| && 0 <= i < |ts|
    ensures |Schedules(ts, passes)[k]| == |ts|
    ensures Schedules(ts, passes)[k][i].trigger == ts[i].trigger
    decreases k
  {
    SchedulesStep(ts, passes, k);
    if k > 0 {
      SchedulesKeepTriggers(ts, passes, k - 1, i);
    }
  }

  /** A trigger added at `t` is evaluated by the first pass at or after `t`. */
  lemma AddedIsEvaluatedFirst(ts: seq<Scheduled>, t: AnyTrigger, added: int, now: int)
    requires now >= added
    ensures |ts| in DueIndices(ts + [Scheduled(t, added)], now)
  {
    DueIndicesRule(ts + [Scheduled(t, added)], now);
  }
}
