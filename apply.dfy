/**
 * Applying a batch of changes: for each change, in order, the output's old
 * renderer is killed and reaped, then a new renderer is launched for the
 * image and registered. A failed launch does not stop the batch; the last
 * failure is returned.
 */
module Apply {
  import opened Types
  import opened Trigger
  import opened Wallpaper

  /** The renderer program. */
  const Renderer: string := "swaybg"

  /** The renderer's arguments: output, image, and always the `fill` mode. */
  function RendererArgs(c: OutputChange): seq<string> {
    ["-o", c.output, "-i", c.imagePath, "-m", "fill"]
  }

  /** What launching the renderer gave: an error, or the new child's process id. */
  datatype SpawnOutcome = SpawnFailed(error: string) | Spawned(child: nat)

  /** The part of the world `apply` changes: tracked handles, kill/wait log, last error. */
  datatype ApplyState = ApplyState(procs: map<string, nat>, log: seq<ProcessEvent>, lastErr: Option<string>)

  /** One change: kill and reap the output's handle, then register the new child or keep the error. */
  function Step(s: ApplyState, c: OutputChange, outcome: SpawnOutcome): ApplyState {
    var killed := if c.output in s.procs then KillAndReap(s.procs[c.output]) else [];
    var procs := s.procs - {c.output};
    match outcome
    case SpawnFailed(e) => ApplyState(procs, s.log + killed, Some(e))
    case Spawned(h) => ApplyState(procs[c.output := h], s.log + killed, s.lastErr)
  }

  /** The state after the changes, in order; `launch` says how each launch ends. */
  function Run(changes: seq<OutputChange>, launch: seq<string> -> SpawnOutcome, s0: ApplyState): ApplyState {
    if changes == [] then s0
    else
      var last := changes[|changes| - 1];
      Step(Run(changes[..|changes| - 1], launch, s0), last, launch(RendererArgs(last)))
  }

  function OutcomeAt(changes: seq<OutputChange>, launch: seq<string> -> SpawnOutcome, i: int): SpawnOutcome
    requires 0 <= i < |changes|
  {
    launch(RendererArgs(changes[i]))
  }

  /** Every kill in the log is followed by a wait on the same child. */
  lemma {:induction false} RunReaps(changes: seq<OutputChange>, launch: seq<string> -> SpawnOutcome, s0: ApplyState)
    requires KillsReaped(s0.log)
    ensures KillsReaped(Run(changes, launch, s0).log)
    decreases |changes|
  {
    if changes != [] {
      var init := changes[..|changes| - 1];
      var last := changes[|changes| - 1];
      var s := Run(init, launch, s0);
      RunReaps(init, launch, s0);
      if last.output in s.procs {
        KillsReapedAppend(s.log, KillAndReap(s.procs[last.output]));
      } else {
        assert s.log + [] == s.log;
      }
    }
  }

  /** An output no change names keeps its handle. */
  lemma {:induction false} RunUntouched(changes: seq<OutputChange>, launch: seq<string> -> SpawnOutcome,
                                        s0: ApplyState, o: string)
    requires forall i :: 0 <= i < |changes| ==> changes[i].output != o
    ensures Get(Run(changes, launch, s0).procs, o) == Get(s0.procs, o)
    decreases |changes|
  {
    if changes != [] {
      RunUntouched(changes[..|changes| - 1], launch, s0, o);
    }
  }

  /**
   * The last change naming an output decides its handle: the new child if
   * that launch succeeded, none if it failed.
   */
  lemma {:induction false} RunLastChangeDecides(changes: seq<OutputChange>, launch: seq<string> -> SpawnOutcome,
                                                s0: ApplyState, i: int)
    requires 0 <= i < |changes|
    requires forall j :: i < j < |changes| ==> changes[j].output != changes[i].output
    ensures var outcome := OutcomeAt(changes, launch, i);
      Get(Run(changes, launch, s0).procs, changes[i].output) == if outcome.Spawned? then Some(outcome.child) else None
    decreases |changes|
  {
    var init := changes[..|changes| - 1];
    if i < |changes| - 1 {
      RunLastChangeDecides(init, launch, s0, i);
      assert init[i] == changes[i];
    }
  }

  /**
   * The error returned is the one of the last failed launch; there is none
   * exactly when every launch succeeded (starting from no error).
   */
  lemma {:induction false} RunLastError(changes: seq<OutputChange>, launch: seq<string> -> SpawnOutcome, s0: ApplyState)
    requires s0.lastErr.None?
    ensures var err := Run(changes, launch, s0).lastErr;
      && (err.None? <==> forall i :: 0 <= i < |changes| ==> OutcomeAt(changes, launch, i).Spawned?)
      && (err.Some? ==> exists i :: (0 <= i < |changes| && OutcomeAt(changes, launch, i) == SpawnFailed(err.value)
            && forall j :: i < j < |changes| ==> OutcomeAt(changes, launch, j).Spawned?))
    decreases |changes|
  {
    if changes != [] {
      var n := |changes|;
      var init := changes[..n - 1];
      RunLastError(init, launch, s0);
      OutcomeAtPrefix(changes, launch);
      var last := OutcomeAt(changes, launch, n - 1);
      var err := Run(changes, launch, s0).lastErr;
      assert err == if last.SpawnFailed? then Some(last.error) else Run(init, launch, s0).lastErr;
      if last.SpawnFailed? {
        assert OutcomeAt(changes, launch, n - 1) == SpawnFailed(err.value);
      } else if err.Some? {
        var i :| 0 <= i < n - 1 && OutcomeAt(init, launch, i) == SpawnFailed(err.value)
          && forall j :: i < j < n - 1 ==> OutcomeAt(init, launch, j).Spawned?;
        assert OutcomeAt(changes, launch, i) == SpawnFailed(err.value);
      }
    }
  }

  /** Dropping the last change leaves the outcomes of the others as they were. */
  lemma OutcomeAtPrefix(changes: seq<OutputChange>, launch: seq<string> -> SpawnOutcome)
    requires changes != []
    ensures forall i :: 0 <= i < |changes| - 1 ==> OutcomeAt(changes[..|changes| - 1], launch, i) == OutcomeAt(changes, launch, i)
  {
  }

  /** A handle tracked before the batch is killed and reaped if some change names its output. */
  lemma {:induction false} RunKillsOldHandle(changes: seq<OutputChange>, launch: seq<string> -> SpawnOutcome,
                                             s0: ApplyState, i: int)
    requires 0 <= i < |changes| && changes[i].output in s0.procs
    requires forall j :: 0 <= j < i ==> changes[j].output != changes[i].output
    ensures var h := s0.procs[changes[i].output];
      exists k :: 0 <= k < |Run(changes, launch, s0).log| - 1
        && Run(changes, launch, s0).log[k] == Killed(h) && Run(changes, launch, s0).log[k + 1] == Reaped(h)
    decreases |changes|
  {
    var n := |changes|;
    var init := changes[..n - 1];
    var h := s0.procs[changes[i].output];
    if i == n - 1 {
      RunUntouched(init, launch, s0, changes[i].output);
      var s := Run(init, launch, s0);
      var log := Run(changes, launch, s0).log;
      assert log == s.log + KillAndReap(h);
      assert log[|s.log|] == Killed(h) && log[|s.log| + 1] == Reaped(h);
    } else {
      assert init[i] == changes[i];
      RunKillsOldHandle(init, launch, s0, i);
      var s := Run(init, launch, s0);
      var k :| 0 <= k < |s.log| - 1 && s.log[k] == Killed(h) && s.log[k + 1] == Reaped(h);
      var log := Run(changes, launch, s0).log;
      assert log[..|s.log|] == s.log;
      assert log[k] == Killed(h) && log[k + 1] == Reaped(h);
    }
  }

  /** `apply_to_output`: launch the renderer and register the child under the output. */
  method ApplyToOutput(c: OutputChange, launch: seq<string> -> SpawnOutcome, tracker: ProcessTracker)
    returns (r: Result<()>, args: seq<string>)
    modifies tracker
    ensures args == RendererArgs(c)
    ensures launch(args).Spawned? ==> r == Ok(()) && tracker.procs == old(tracker.procs)[c.output := launch(args).child]
    ensures launch(args).SpawnFailed? ==> r == Err(launch(args).error) && tracker.procs == old(tracker.procs)
    ensures tracker.events == old(tracker.events)
  {
    args := RendererArgs(c);
    var outcome := launch(args);
    if outcome.SpawnFailed? {
      return Err(outcome.error), args;
    }
    tracker.RegisterProcess(c.output, outcome.child);
    r := Ok(());
  }

  /** One iteration of `apply`: kill the output's renderer, launch the new one, keep a launch error. */
  method ApplyChange(c: OutputChange, launch: seq<string> -> SpawnOutcome, tracker: ProcessTracker, lastErr: Option<string>)
    returns (lastErr': Option<string>, args: seq<string>)
    requires tracker.Valid()
    modifies tracker
    ensures tracker.Valid()
    ensures args == RendererArgs(c)
    ensures Step(ApplyState(old(tracker.procs), old(tracker.events), lastErr), c, launch(args))
      == ApplyState(tracker.procs, tracker.events, lastErr')
  {
    tracker.KillForOutput(c.output);
    var applied;
    applied, args := ApplyToOutput(c, launch, tracker);
    lastErr' := if applied.Err? then Some(applied.error) else lastErr;
  }

  /**
   * `apply`. `launch` says how each renderer launch ends; `launched` lists
   * the argument vectors of the launches, in order.
   */
  method Apply(result: TriggerResult, launch: seq<string> -> SpawnOutcome, tracker: ProcessTracker)
    returns (r: Result<()>, launched: seq<seq<string>>)
    requires tracker.Valid()
    modifies tracker
    ensures tracker.Valid()
    ensures result.IsEmpty() ==>
      r == Ok(()) && launched == [] && tracker.procs == old(tracker.procs) && tracker.events == old(tracker.events)
    ensures var s := Run(result.changes, launch, ApplyState(old(tracker.procs), old(tracker.events), None));
      && tracker.procs == s.procs && tracker.events == s.log
      && r == (if s.lastErr.Some? then Err(s.lastErr.value) else Ok(()))
    ensures |launched| == |result.changes|
    ensures forall i :: 0 <= i < |launched| ==> launched[i] == RendererArgs(result.changes[i])
  {
    ghost var s0 := ApplyState(tracker.procs, tracker.events, None);
    launched := [];
    if result.IsEmpty() {
      return Ok(()), launched;
    }
    var changes := result.changes;
    var lastErr: Option<string> := None;
    var i := 0;
    while i < |changes|
      invariant 0 <= i <= |changes|
      invariant tracker.Valid()
      invariant Run(changes[..i], launch, s0) == ApplyState(tracker.procs, tracker.events, lastErr)
      invariant |launched| == i
      invariant forall j :: 0 <= j < i ==> launched[j] == RendererArgs(changes[j])
    {
      assert changes[..i + 1][..i] == changes[..i];
      var args;
      lastErr, args := ApplyChange(changes[i], launch, tracker, lastErr);
      launched := launched + [args];
      i := i + 1;
    }
    assert changes[..i] == changes;
    if lastErr.Some? {
      return Err(lastErr.value), launched;
    }
    r := Ok(());
  }

  /**
   * Two outputs, the first launch failing: the first output ends with no
   * renderer (its old one killed and reaped), the second with its new child,
   * and the failure is reported.
   */
  lemma FailedLaunchDoesNotStopBatch(old_a: nat, b_child: nat, e: string, launch: seq<string> -> SpawnOutcome)
    requires launch(RendererArgs(OutputChange("A", "a.png"))) == SpawnFailed(e)
    requires launch(RendererArgs(OutputChange("B", "b.png"))) == Spawned(b_child)
    ensures var s := Run([OutputChange("A", "a.png"), OutputChange("B", "b.png")], launch,
                         ApplyState(map["A" := old_a], [], None));
      s == ApplyState(map["B" := b_child], [Killed(old_a), Reaped(old_a)], Some(e))
  {
    var changes := [OutputChange("A", "a.png"), OutputChange("B", "b.png")];
    assert changes[..1] == [OutputChange("A", "a.png")];
    assert changes[..1][..0] == [];
    var s0 := ApplyState(map["A" := old_a], [], None);
    var s1 := Step(s0, changes[0], SpawnFailed(e));
    assert map["A" := old_a] - {"A"} == map[];
    assert s1 == ApplyState(map[], [Killed(old_a), Reaped(old_a)], Some(e));
    assert Run(changes[..1], launch, s0) == s1;
    assert "B" !in s1.procs;
    assert s1.log + [] == s1.log;
    assert Step(s1, changes[1], Spawned(b_child)) == ApplyState(map["B" := b_child], [Killed(old_a), Reaped(old_a)], Some(e));
  }
}
