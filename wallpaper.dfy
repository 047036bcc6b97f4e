/**
 * The renderer process tracker: one child handle per output name. Killing a
 * handle is always followed by waiting on it, so no child is left a zombie.
 * Handles are process ids; what happens to the children is recorded as a log
 * of kill and wait events.
 */
module Wallpaper {

  /** What the tracker does to a child process. */
  datatype ProcessEvent = Killed(handle: nat) | Reaped(handle: nat)

  /** The log is a sequence of kill/wait pairs on the same handle. */
  ghost predicate KillsReaped(log: seq<ProcessEvent>) {
    && |log| % 2 == 0
    && forall i :: 0 <= i < |log| / 2 ==> log[2 * i].Killed? && log[2 * i + 1] == Reaped(log[2 * i].handle)
  }

  /** Killing and reaping one handle. */
  function KillAndReap(h: nat): (log: seq<ProcessEvent>)
    ensures KillsReaped(log)
  {
    [Killed(h), Reaped(h)]
  }

  lemma {:induction false} KillsReapedAppend(a: seq<ProcessEvent>, b: seq<ProcessEvent>)
    requires KillsReaped(a) && KillsReaped(b)
    ensures KillsReaped(a + b)
  {
    var ab := a + b;
    forall i | 0 <= i < |ab| / 2
      ensures ab[2 * i].Killed? && ab[2 * i + 1] == Reaped(ab[2 * i].handle)
    {
      if i < |a| / 2 {
        assert ab[2 * i] == a[2 * i] && ab[2 * i + 1] == a[2 * i + 1];
      } else {
        var j := i - |a| / 2;
        assert 2 * i == |a| + 2 * j;
        assert ab[2 * i] == b[2 * j] && ab[2 * i + 1] == b[2 * j + 1];
      }
    }
  }

  /** The kill/wait log of draining the handles of `order`, in that order. */
  function DrainLog(order: seq<string>, procs: map<string, nat>): (log: seq<ProcessEvent>)
    requires forall i :: 0 <= i < |order| ==> order[i] in procs
    ensures |log| == 2 * |order|
  {
    if order == [] then []
    else DrainLog(order[..|order| - 1], procs) + KillAndReap(procs[order[|order| - 1]])
  }

  lemma {:induction false} DrainLogReaps(order: seq<string>, procs: map<string, nat>)
    requires forall i :: 0 <= i < |order| ==> order[i] in procs
    ensures KillsReaped(DrainLog(order, procs))
    decreases |order|
  {
    if order != [] {
      DrainLogReaps(order[..|order| - 1], procs);
      KillsReapedAppend(DrainLog(order[..|order| - 1], procs), KillAndReap(procs[order[|order| - 1]]));
    }
  }

  /** Every handle of `procs` is killed and reaped by draining along `order`. */
  lemma {:induction false} DrainLogCovers(order: seq<string>, procs: map<string, nat>, k: int)
    requires forall i :: 0 <= i < |order| ==> order[i] in procs
    requires 0 <= k < |order|
    ensures DrainLog(order, procs)[2 * k] == Killed(procs[order[k]])
    ensures DrainLog(order, procs)[2 * k + 1] == Reaped(procs[order[k]])
    decreases |order|
  {
    var init := order[..|order| - 1];
    if k < |order| - 1 {
      DrainLogCovers(init, procs, k);
      assert init[k] == order[k];
    }
  }

  /** No name appears twice in `order`. */
  ghost predicate NoRepeats(order: seq<string>) {
    forall i, j :: 0 <= i < j < |order| ==> order[i] != order[j]
  }

  lemma NoRepeatsAppend(order: seq<string>, x: string)
    requires NoRepeats(order) && x !in order
    ensures NoRepeats(order + [x])
  {
  }

  /** `order` lists every key of the set once. */
  ghost predicate IsOrderOf(order: seq<string>, keys: set<string>) {
    && (forall i :: 0 <= i < |order| ==> order[i] in keys)
    && (forall k :: k in keys ==> k in order)
    && NoRepeats(order)
  }

  /** `PROCESS_TRACKER`: the running renderer of each output. */
  class ProcessTracker {
    var procs: map<string, nat>
    /** What was done to tracked children, oldest first. */
    var events: seq<ProcessEvent>

    ghost predicate Valid()
      reads this
    {
      KillsReaped(events)
    }

    constructor ()
      ensures procs == map[] && events == [] && Valid()
    {
      procs := map[];
      events := [];
    }

    /** `kill_for_output`: removes the output's handle, then kills and reaps it. */
    method KillForOutput(output: string)
      requires Valid()
      modifies this
      ensures Valid()
      ensures procs == old(procs) - {output}
      ensures output in old(procs) ==> events == old(events) + KillAndReap(old(procs)[output])
      ensures output !in old(procs) ==> events == old(events)
    {
      if output in procs {
        var child := procs[output];
        procs := procs - {output};
        KillsReapedAppend(events, KillAndReap(child));
        events := events + [Killed(child)];
        events := events + [Reaped(child)];
      }
    }

    /** `register_process`. */
    method RegisterProcess(output: string, child: nat)
      modifies this
      ensures procs == old(procs)[output := child]
      ensures events == old(events)
    {
      procs := procs[output := child];
    }

    /** `kill_all`: drains the tracker, killing then reaping every handle, in some order. */
    method KillAll()
      requires Valid()
      modifies this
      ensures Valid()
      ensures procs == map[]
      ensures exists order :: IsOrderOf(order, old(procs).Keys) && events == old(events) + DrainLog(order, old(procs))
    {
      var log, order := Drain(procs);
      DrainLogReaps(order, procs);
      KillsReapedAppend(events, log);
      procs := map[];
      events := events + log;
    }
  }

  /** The kill/wait log of draining `drained`, taking the names in an arbitrary order. */
  method Drain(drained: map<string, nat>) returns (log: seq<ProcessEvent>, ghost order: seq<string>)
    ensures IsOrderOf(order, drained.Keys)
    ensures log == DrainLog(order, drained)
  {
    log := [];
    order := [];
    var pending := drained.Keys;
    while pending != {}
      invariant pending <= drained.Keys
      invariant forall i :: 0 <= i < |order| ==> order[i] in drained && order[i] !in pending
      invariant forall k :: k in drained && k !in pending ==> k in order
      invariant NoRepeats(order)
      invariant log == DrainLog(order, drained)
      decreases |pending|
    {
      var output :| output in pending;
      pending := pending - {output};
      log := log + [Killed(drained[output]), Reaped(drained[output])];
      assert (order + [output])[..|order|] == order;
      NoRepeatsAppend(order, output);
      order := order + [output];
    }
  }

  /** Draining reaps every handle that was tracked, under every output name. */
  lemma DrainReapsEveryHandle(order: seq<string>, procs: map<string, nat>, output: string)
    requires IsOrderOf(order, procs.Keys) && output in procs
    ensures Killed(procs[output]) in DrainLog(order, procs) && Reaped(procs[output]) in DrainLog(order, procs)
  {
    var k :| 0 <= k < |order| && order[k] == output;
    DrainLogCovers(order, procs, k);
  }
}
