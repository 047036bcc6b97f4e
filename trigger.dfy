/**
 * What a trigger evaluation produces: a batch of per-output image changes.
 * `None` and an empty batch both mean "nothing to change".
 */
module Trigger {
  import opened Types

  datatype OutputChange = OutputChange(output: string, imagePath: string)

  datatype TriggerResult = TriggerResult(changes: seq<OutputChange>) {
    predicate IsEmpty() {
      |changes| == 0
    }
  }

  /** The outcome of `Trigger::evaluate`. */
  type Evaluation = Result<Option<TriggerResult>>

  /** `TriggerResult::single`. */
  function Single(output: string, imagePath: string): (r: TriggerResult)
    ensures |r.changes| == 1
    ensures r.changes[0].output == output && r.changes[0].imagePath == imagePath
    ensures !r.IsEmpty()
  {
    TriggerResult([OutputChange(output, imagePath)])
  }

  /**
   * `changes` lists the entries of `m` (output name to image path), each
   * output exactly once, in some order. The triggers build their batches by
   * iterating over a hash map, so no order is promised.
   */
  predicate Enumerates(changes: seq<OutputChange>, m: map<string, string>) {
    && (forall i :: 0 <= i < |changes| ==> changes[i].output in m && changes[i].imagePath == m[changes[i].output])
    && (forall o :: o in m ==> exists i :: 0 <= i < |changes| && changes[i].output == o)
    && (forall i, j :: 0 <= i < j < |changes| ==> changes[i].output != changes[j].output)
  }

  /** A batch that enumerates a map has one change per entry. */
  lemma {:induction false} EnumeratesSize(changes: seq<OutputChange>, m: map<string, string>)
    requires Enumerates(changes, m)
    ensures |changes| == |m|
    decreases |changes|
  {
    if changes == [] {
      assert forall o :: o !in m;
      assert m.Keys == {};
    } else {
      var last := changes[|changes| - 1];
      var rest := changes[..|changes| - 1];
      var m' := m - {last.output};
      forall o | o in m' ensures exists i :: 0 <= i < |rest| && rest[i].output == o {
        var i :| 0 <= i < |changes| && changes[i].output == o;
        assert i < |rest| && rest[i] == changes[i];
      }
      assert Enumerates(rest, m');
      EnumeratesSize(rest, m');
      assert m'.Keys == m.Keys - {last.output};
    }
  }

  /**
   * A batch under construction: `changes` enumerates the entries of `m`
   * whose outputs are in `done`.
   */
  predicate EnumeratesPart(changes: seq<OutputChange>, m: map<string, string>, done: set<string>) {
    && (forall i :: 0 <= i < |changes| ==>
         changes[i].output in m && changes[i].output in done && changes[i].imagePath == m[changes[i].output])
    && (forall o :: o in m && o in done ==> exists i :: 0 <= i < |changes| && changes[i].output == o)
    && (forall i, j :: 0 <= i < j < |changes| ==> changes[i].output != changes[j].output)
  }

  lemma EnumeratesPartStart(m: map<string, string>)
    ensures EnumeratesPart([], m, {})
  {
  }

  /** Visiting an output without an entry adds nothing. */
  lemma EnumeratesPartSkip(changes: seq<OutputChange>, m: map<string, string>, done: set<string>, o: string)
    requires EnumeratesPart(changes, m, done) && o !in m
    ensures EnumeratesPart(changes, m, done + {o})
  {
  }

  /** Visiting a new output with an entry appends that entry. */
  lemma EnumeratesPartAdd(changes: seq<OutputChange>, m: map<string, string>, done: set<string>, o: string)
    requires EnumeratesPart(changes, m, done) && o in m && o !in done
    ensures EnumeratesPart(changes + [OutputChange(o, m[o])], m, done + {o})
  {
    var changes' := changes + [OutputChange(o, m[o])];
    assert changes'[|changes|].output == o;
    forall o' | o' in m && o' in done + {o}
      ensures exists i :: 0 <= i < |changes'| && changes'[i].output == o'
    {
      if o' != o {
        var i :| 0 <= i < |changes| && changes[i].output == o';
        assert changes'[i] == changes[i];
      }
    }
  }

  /** Once every entry's output is visited the batch is complete. */
  lemma EnumeratesPartDone(changes: seq<OutputChange>, m: map<string, string>, done: set<string>)
    requires EnumeratesPart(changes, m, done) && m.Keys <= done
    ensures Enumerates(changes, m)
  {
  }

  /**
   * The per-output memory of a trigger part-way through an evaluation:
   * `last0` updated, for every planned output already visited (`done`),
   * with that output's new value from `values`.
   */
  ghost predicate Records<V>(last: map<string, V>, last0: map<string, V>, plan: map<string, string>,
                             values: map<string, V>, done: set<string>) {
    && plan.Keys <= values.Keys
    && (forall o :: o in last <==> o in last0 || (o in plan && o in done))
    && (forall o :: o in last ==> last[o] == if o in plan && o in done then values[o] else last0[o])
  }

  lemma RecordsStart<V>(last0: map<string, V>, plan: map<string, string>, values: map<string, V>)
    requires plan.Keys <= values.Keys
    ensures Records(last0, last0, plan, values, {})
  {
  }

  lemma RecordsSkip<V>(last: map<string, V>, last0: map<string, V>, plan: map<string, string>,
                       values: map<string, V>, done: set<string>, o: string)
    requires Records(last, last0, plan, values, done) && o !in plan
    ensures Records(last, last0, plan, values, done + {o})
  {
  }

  lemma RecordsAdd<V>(last: map<string, V>, last0: map<string, V>, plan: map<string, string>,
                      values: map<string, V>, done: set<string>, o: string)
    requires Records(last, last0, plan, values, done) && o in plan
    ensures Records(last[o := values[o]], last0, plan, values, done + {o})
  {
  }

  /**
   * A trigger's per-output loop part-way through: the batch so far and the
   * updated memory both reflect exactly the visited outputs `done`.
   */
  ghost predicate Progress<V>(changes: seq<OutputChange>, last: map<string, V>, last0: map<string, V>,
                              plan: map<string, string>, values: map<string, V>, done: set<string>) {
    EnumeratesPart(changes, plan, done) && Records(last, last0, plan, values, done)
  }

  lemma ProgressStart<V>(last0: map<string, V>, plan: map<string, string>, values: map<string, V>)
    requires plan.Keys <= values.Keys
    ensures Progress([], last0, last0, plan, values, {})
  {
  }

  /** Visiting an output that is not planned changes neither the batch nor the memory. */
  lemma ProgressSkip<V>(changes: seq<OutputChange>, last: map<string, V>, last0: map<string, V>,
                        plan: map<string, string>, values: map<string, V>, done: set<string>, o: string)
    requires Progress(changes, last, last0, plan, values, done) && o !in plan
    ensures Progress(changes, last, last0, plan, values, done + {o})
  {
  }

  /** Visiting a planned output appends its change and records its value. */
  lemma ProgressAdd<V>(changes: seq<OutputChange>, last: map<string, V>, last0: map<string, V>,
                       plan: map<string, string>, values: map<string, V>, done: set<string>, o: string)
    requires Progress(changes, last, last0, plan, values, done) && o in plan && o !in done
    ensures Progress(changes + [OutputChange(o, plan[o])], last[o := values[o]], last0, plan, values, done + {o})
  {
    EnumeratesPartAdd(changes, plan, done, o);
  }

  lemma ProgressDone<V>(changes: seq<OutputChange>, last: map<string, V>, last0: map<string, V>,
                        plan: map<string, string>, values: map<string, V>, done: set<string>)
    requires Progress(changes, last, last0, plan, values, done) && plan.Keys <= done
    ensures Enumerates(changes, plan) && Records(last, last0, plan, values, done)
  {
  }

  /** Taking `o` out of the pending outputs adds it to the visited ones. */
  lemma PendingShrinks(keys: set<string>, pending: set<string>, o: string)
    requires o in pending && pending <= keys
    ensures keys - (pending - {o}) == (keys - pending) + {o}
    ensures |pending - {o}| < |pending|
  {
  }
}
