/**
 * The static trigger: applies the configured per-output backgrounds once.
 * It fires on the first evaluation that produces at least one change and is
 * a no-op from then on; an evaluation that produces nothing leaves it armed.
 */
module StaticTriggers {
  import opened Types
  import opened Resolver
  import opened Trigger
  import State
  import Config

  const StaticInterval: nat := 60

  /** Output to resolved image path, for every entry of `rb` that names an image. */
  function WithImages(rb: map<string, Config.BackgroundConfig>, pool: Option<string>, dirs: set<string>): map<string, string> {
    map o | o in rb && rb[o].image.Some? :: State.ResolvePath(pool, rb[o].image.value, dirs)
  }

  /** What the static trigger wants to show on `outputs`. */
  function Emitted(bg: map<string, Config.BackgroundConfig>, outputs: seq<string>, pool: Option<string>, dirs: set<string>)
    : map<string, string>
  {
    WithImages(Resolved(outputs, bg), pool, dirs)
  }

  /** The loop of `evaluate`: one change per resolved entry with an image, skipping the rest. */
  method CollectChanges(rb: map<string, Config.BackgroundConfig>, pool: Option<string>, dirs: set<string>)
    returns (changes: seq<OutputChange>)
    ensures Enumerates(changes, WithImages(rb, pool, dirs))
  {
    ghost var plan := WithImages(rb, pool, dirs);
    changes := [];
    var pending := rb.Keys;
    EnumeratesPartStart(plan);
    while pending != {}
      invariant pending <= rb.Keys
      invariant EnumeratesPart(changes, plan, rb.Keys - pending)
      decreases |pending|
    {
      var o :| o in pending;
      ghost var done := rb.Keys - pending;
      pending := pending - {o};
      assert rb.Keys - pending == done + {o};
      if rb[o].image.Some? {
        var path := State.ResolvePath(pool, rb[o].image.value, dirs);
        EnumeratesPartAdd(changes, plan, done, o);
        changes := changes + [OutputChange(o, path)];
      } else {
        EnumeratesPartSkip(changes, plan, done, o);
      }
    }
    EnumeratesPartDone(changes, plan, rb.Keys);
  }

  /**
   * An output gets a change exactly when it is active, covered by its own
   * entry or the wildcard, and that entry has an image; the path is that
   * image resolved against the pool. Outputs without an image are skipped.
   */
  lemma EmittedRule(bg: map<string, Config.BackgroundConfig>, outputs: seq<string>, pool: Option<string>, dirs: set<string>)
    ensures forall o :: o in Emitted(bg, outputs, pool, dirs) <==>
      o in outputs && (o in bg || Wildcard in bg) && (if o in bg then bg[o] else bg[Wildcard]).image.Some?
    ensures forall o :: o in Emitted(bg, outputs, pool, dirs) ==>
      Emitted(bg, outputs, pool, dirs)[o]
        == State.ResolvePath(pool, (if o in bg then bg[o] else bg[Wildcard]).image.value, dirs)
  {
    ResolvedRule(outputs, bg);
  }

  /**
   * The batch one evaluation of an armed trigger aims at: an error when the
   * outputs cannot be detected, no entries when there is no background
   * configuration.
   */
  function Planned(view: State.StateView, run: EnumeratorRun, dirs: set<string>): Result<map<string, string>> {
    match view.config.background
    case None => Ok(map[])
    case Some(bg) =>
      match Detect(run)
      case Err(e) => Err(e)
      case Ok(resolver) => Ok(Emitted(bg, resolver.outputs, view.imagesPool, dirs))
  }

  /**
   * What one `evaluate` does, from the flag `executed0` before to `executed`
   * after: once executed it stays quiet; otherwise an enumeration error is
   * returned, an empty plan gives `None`, and a non-empty one is returned in
   * full and sets the flag.
   */
  predicate Evaluated(executed0: bool, executed: bool, view: State.StateView, run: EnumeratorRun,
                      dirs: set<string>, r: Evaluation)
  {
    && (executed0 ==> r == Ok(None) && executed)
    && (!executed0 ==> match Planned(view, run, dirs)
        case Err(e) => r == Err(e) && !executed
        case Ok(plan) =>
          if plan == map[] then r == Ok(None) && !executed
          else executed && r.Ok? && r.value.Some? && Enumerates(r.value.value.changes, plan))
    && (executed <==> executed0 || (r.Ok? && r.value.Some?))
  }

  class StaticTrigger {
    var executed: bool

    constructor ()
      ensures !executed
    {
      executed := false;
    }

    /** Seconds between two evaluations. */
    function Interval(): nat {
      StaticInterval
    }

    method Init() returns (r: Result<()>)
      ensures r == Ok(())
    {
      r := Ok(());
    }

    /**
     * `StaticTrigger::evaluate`. `view` is the state read under the lock,
     * `run` the output enumeration, `dirs` the directories that exist.
     */
    method Evaluate(view: State.StateView, run: EnumeratorRun, dirs: set<string>) returns (r: Evaluation)
      modifies this
      ensures Evaluated(old(executed), executed, view, run, dirs, r)
      ensures r.Ok? && r.value.Some? ==> !r.value.value.IsEmpty()
    {
      if executed {
        return Ok(None);
      }
      if view.config.background.None? {
        return Ok(None);
      }
      var bg := view.config.background.value;
      var detected := Detect(run);
      if detected.Err? {
        return Err(detected.error);
      }
      var resolver := detected.value;
      if |resolver.outputs| == 0 {
        assert Resolved(resolver.outputs, bg) == map[];
        assert Emitted(bg, resolver.outputs, view.imagesPool, dirs) == map[];
        return Ok(None);
      }
      var resolved := ResolveMap(resolver, bg);
      ghost var plan := Emitted(bg, resolver.outputs, view.imagesPool, dirs);
      var changes := CollectChanges(resolved, view.imagesPool, dirs);
      if |changes| == 0 {
        assert plan == map[] by {
          assert forall o :: o !in plan;
        }
        return Ok(None);
      }
      assert changes[0].output in plan;
      executed := true;
      r := Ok(Some(TriggerResult(changes)));
    }
  }
}
