/**
 * The output resolver: the list of active display outputs and the rule that
 * maps a per-output configuration onto it (exact name, then the `"*"`
 * wildcard, else the output is left out).
 */
module Resolver {
  import opened Types

  const Wildcard: string := "*"

  /** One record of the compositor's output enumeration. */
  datatype SwayOutput = SwayOutput(name: string, active: bool)

  /**
   * How the enumeration command ended: it could not be started, it exited
   * with a non-zero status, or it succeeded and its output either decoded to
   * a list of records (`Some`) or did not (`None`).
   */
  datatype EnumeratorRun = CouldNotRun | NonZeroExit | Exited(records: Option<seq<SwayOutput>>)

  datatype OutputResolver = OutputResolver(outputs: seq<string>)

  /** `OutputResolver::from_outputs` followed by `outputs()`: the list is kept as given. */
  function FromOutputs(outputs: seq<string>): (r: OutputResolver)
    ensures r.outputs == outputs
  {
    OutputResolver(outputs)
  }

  /** The filter/map pipeline of `parse_swaymsg_outputs`: names of active records. */
  function ActiveNames(records: seq<SwayOutput>): (names: seq<string>)
    ensures |names| <= |records|
  {
    if records == [] then []
    else (if records[0].active then [records[0].name] else []) + ActiveNames(records[1..])
  }

  /** Filtering distributes over concatenation, so the original order is kept. */
  lemma {:induction false} ActiveNamesAppend(a: seq<SwayOutput>, b: seq<SwayOutput>)
    ensures ActiveNames(a + b) == ActiveNames(a) + ActiveNames(b)
    decreases |a|
  {
    if a == [] {
      assert a + b == b;
    } else {
      assert (a + b)[0] == a[0] && (a + b)[1..] == a[1..] + b;
      ActiveNamesAppend(a[1..], b);
      var head := if a[0].active then [a[0].name] else [];
      calc {
        ActiveNames(a + b);
        head + ActiveNames(a[1..] + b);
        head + (ActiveNames(a[1..]) + ActiveNames(b));
        (head + ActiveNames(a[1..])) + ActiveNames(b);
      }
    }
  }

  /** A name is kept exactly when some active record carries it. */
  lemma {:induction false} ActiveNamesMembers(records: seq<SwayOutput>, n: string)
    ensures n in ActiveNames(records) <==>
      exists i :: 0 <= i < |records| && records[i].active && records[i].name == n
    decreases |records|
  {
    if records != [] {
      ActiveNamesMembers(records[1..], n);
      if n in ActiveNames(records[1..]) {
        var i :| 0 <= i < |records[1..]| && records[1..][i].active && records[1..][i].name == n;
        assert records[i + 1] == records[1..][i];
      }
      if exists i :: 0 <= i < |records| && records[i].active && records[i].name == n {
        var i :| 0 <= i < |records| && records[i].active && records[i].name == n;
        if i > 0 {
          assert records[1..][i - 1] == records[i];
        }
      }
    }
  }

  /** The example of the source's own test: one active and one inactive output. */
  lemma ParseExample()
    ensures ActiveNames([SwayOutput("HDMI-A-1", true), SwayOutput("DP-1", false)]) == ["HDMI-A-1"]
  {
    var rs := [SwayOutput("HDMI-A-1", true), SwayOutput("DP-1", false)];
    assert rs[1..] == [SwayOutput("DP-1", false)];
    assert rs[1..][1..] == [];
  }

  /** `parse_swaymsg_outputs`: undecodable output is an error. */
  function ParseOutputs(records: Option<seq<SwayOutput>>): (r: Result<seq<string>>)
    ensures records.None? <==> r.Err?
    ensures records.Some? ==> r.value == ActiveNames(records.value)
  {
    match records
    case None => Err("invalid output enumeration JSON")
    case Some(rs) => Ok(ActiveNames(rs))
  }

  /**
   * `detect_outputs`: a command that cannot run or fails yields no outputs,
   * not an error; only undecodable output of a successful run is an error.
   */
  function DetectOutputs(run: EnumeratorRun): (r: Result<seq<string>>)
    ensures run.CouldNotRun? || run.NonZeroExit? ==> r == Ok([])
    ensures r.Err? <==> run.Exited? && run.records.None?
    ensures run.Exited? && run.records.Some? ==> r == Ok(ActiveNames(run.records.value))
  {
    match run
    case CouldNotRun => Ok([])
    case NonZeroExit => Ok([])
    case Exited(records) => ParseOutputs(records)
  }

  /** `OutputResolver::detect`. */
  function Detect(run: EnumeratorRun): Result<OutputResolver> {
    match DetectOutputs(run)
    case Ok(outputs) => Ok(FromOutputs(outputs))
    case Err(e) => Err(e)
  }

  /** The map `resolve_map` builds after visiting `outputs` in order. */
  function Resolved<T>(outputs: seq<string>, m: map<string, T>): map<string, T> {
    if outputs == [] then map[]
    else
      var r := Resolved(outputs[..|outputs| - 1], m);
      var o := outputs[|outputs| - 1];
      if o in m then r[o := m[o]]
      else if Wildcard in m then r[o := m[Wildcard]]
      else r
  }

  /**
   * The resolution rule: an output is in the result exactly when the map has
   * its name or the wildcard, and then it gets its own entry if there is one,
   * else the wildcard's. No other key appears.
   */
  lemma {:induction false} ResolvedRule<T>(outputs: seq<string>, m: map<string, T>)
    ensures forall o :: o in Resolved(outputs, m) <==> o in outputs && (o in m || Wildcard in m)
    ensures forall o :: o in Resolved(outputs, m) ==>
      Resolved(outputs, m)[o] == if o in m then m[o] else m[Wildcard]
    decreases |outputs|
  {
    if outputs != [] {
      var init := outputs[..|outputs| - 1];
      ResolvedRule(init, m);
      assert outputs == init + [outputs[|outputs| - 1]];
    }
  }

  /** `OutputResolver::resolve_map`. */
  method ResolveMap<T>(resolver: OutputResolver, m: map<string, T>) returns (r: map<string, T>)
    ensures r == Resolved(resolver.outputs, m)
    ensures forall o :: o in r <==> o in resolver.outputs && (o in m || Wildcard in m)
    ensures forall o :: o in r ==> r[o] == if o in m then m[o] else m[Wildcard]
  {
    var outputs := resolver.outputs;
    r := map[];
    var i := 0;
    while i < |outputs|
      invariant 0 <= i <= |outputs|
      invariant r == Resolved(outputs[..i], m)
    {
      var o := outputs[i];
      assert outputs[..i + 1][..i] == outputs[..i];
      if o in m {
        r := r[o := m[o]];
      } else if Wildcard in m {
        r := r[o := m[Wildcard]];
      }
      i := i + 1;
    }
    assert outputs[..i] == outputs;
    ResolvedRule(outputs, m);
  }

  /** The source's test: an exact entry beats the wildcard, which covers the rest. */
  lemma ExactBeatsWildcard()
    ensures var r := Resolved(["HDMI-1", "DP-1"], map["HDMI-1" := "a.png", Wildcard := "default.png"]);
      r == map["HDMI-1" := "a.png", "DP-1" := "default.png"]
  {
    var m := map["HDMI-1" := "a.png", Wildcard := "default.png"];
    ResolvedRule(["HDMI-1", "DP-1"], m);
    var r := Resolved(["HDMI-1", "DP-1"], m);
    assert r.Keys == {"HDMI-1", "DP-1"};
  }

  /** A wildcard-only map sends every listed output to the wildcard value. */
  lemma WildcardOnly<T>(outputs: seq<string>, v: T)
    ensures Resolved(outputs, map[Wildcard := v]) == map o | o in outputs :: v
  {
    ResolvedRule(outputs, map[Wildcard := v]);
  }

  /** An empty map resolves to nothing. */
  lemma EmptyMapResolvesToNothing<T>(outputs: seq<string>, m: map<string, T>)
    requires m == map[]
    ensures Resolved(outputs, m) == map[]
  {
    ResolvedRule(outputs, m);
  }
}
