/**
 * The daemon lifecycle over a PID file. The file holds the decimal PID of
 * the foreground daemon; `start` refuses while that process is alive and
 * clears a stale file, `stop` signals the recorded process and removes the
 * file, `restart` signals a live recorded process, removes any PID file
 * and always spawns, `status` only reads.
 *
 * The PID file is its contents (`None` when absent); which processes are
 * alive, whether a signal can be delivered and whether a child can be
 * spawned are parameters (`World`); signals sent and children spawned are
 * recorded as actions.
 */
module Daemon {
  import opened Types
  import opened Text
  import Config
  import Scheduler
  import StaticTriggers
  import DayTime
  import Weather

  /** What the manager does to other processes. */
  datatype Action = Signalled(pid: nat) | SpawnedDaemon

  datatype Failure =
    | Unreadable               // the PID file does not parse as a `u32`
    | AlreadyRunning(pid: nat)
    | NotRunning               // no PID file
    | StalePid(pid: nat)       // the recorded process is gone; the file was removed
    | SignalFailed(pid: nat)
    | SpawnError
    | WriteError

  datatype Outcome = Done | Failed(why: Failure)

  /** The PID file and the actions taken so far, oldest first. */
  datatype DaemonState = DaemonState(pidFile: Option<string>, actions: seq<Action>)

  datatype Step = Step(outcome: Outcome, next: DaemonState)

  /** Live processes, and whether SIGTERM delivery and spawning succeed. */
  datatype World = World(live: set<nat>, termOk: bool, spawnOk: bool)

  /**
   * `read_pid`: no file gives `None`; otherwise the trimmed contents must
   * parse as a `u32`, and a parse error is passed on with its message.
   */
  function ReadPid(file: Option<string>): (r: Result<Option<nat>>)
    ensures file.None? <==> r == Ok(None)
    ensures r.Err? <==> file.Some? && ParseU32(Trim(file.value)).Err?
    ensures r.Err? ==> r.error == ParseU32(Trim(file.value)).error
    ensures r.Ok? && r.value.Some? ==> r.value.value < U32Limit && ParseU32(Trim(file.value)) == Ok(r.value.value)
  {
    match file
    case None => Ok(None)
    case Some(text) =>
      match ParseU32(Trim(text))
      case Ok(pid) => Ok(Some(pid))
      case Err(e) => Err(e)
  }

  /**
   * A PID file holding only whitespace reports the empty-string error, and
   * surrounding whitespace, a form feed included, does not hide the PID.
   */
  lemma PidFileWhitespace()
    ensures ReadPid(Some(" \n")) == Err(EmptyMessage)
    ensures ReadPid(Some("7\U{000C}")) == Ok(Some(7))
  {
    assert Trim(" \n") == "" by {
      assert " \n"[1..] == "\n" && "\n"[1..] == "";
    }
    assert Trim("7\U{000C}") == "7" by {
      assert "7\U{000C}"[..1] == "7";
    }
    assert DigitsValue("7") == 7 by {
      assert "7"[..0] == "";
    }
  }

  /** `write_pid`: the PID in decimal, nothing else. */
  function WritePid(pid: nat): string {
    Decimal(pid)
  }

  /** A written PID reads back as itself. */
  lemma ReadAfterWrite(pid: nat)
    requires pid < U32Limit
    ensures ReadPid(Some(WritePid(pid))) == Ok(Some(pid))
  {
    DecimalParses(pid);
  }

  /** `spawn_detached`: the child writes its own PID later, so the file is untouched. */
  function SpawnStep(d: DaemonState, w: World): (s: Step)
    ensures s.next.pidFile == d.pidFile
    ensures w.spawnOk ==> s == Step(Done, d.(actions := d.actions + [SpawnedDaemon]))
    ensures !w.spawnOk ==> s == Step(Failed(SpawnError), d)
  {
    if w.spawnOk then Step(Done, d.(actions := d.actions + [SpawnedDaemon])) else Step(Failed(SpawnError), d)
  }

  /** `start(false)`. */
  function StartStep(d: DaemonState, w: World): (s: Step)
    ensures ReadPid(d.pidFile).Err? ==> s == Step(Failed(Unreadable), d)
    ensures forall p :: ReadPid(d.pidFile) == Ok(Some(p)) && p in w.live ==> s == Step(Failed(AlreadyRunning(p)), d)
    ensures s.outcome.Done? ==> s.next == DaemonState(None, d.actions + [SpawnedDaemon])
    ensures (forall p :: ReadPid(d.pidFile) == Ok(Some(p)) ==> p !in w.live) && ReadPid(d.pidFile).Ok? ==>
      s == SpawnStep(d.(pidFile := None), w)
  {
    match ReadPid(d.pidFile)
    case Err(_) => Step(Failed(Unreadable), d)
    case Ok(None) => SpawnStep(d, w)
    case Ok(Some(pid)) =>
      if pid in w.live then Step(Failed(AlreadyRunning(pid)), d)
      else SpawnStep(d.(pidFile := None), w)
  }

  /** `run_foreground`'s bookkeeping: record the own PID (the trigger loop follows). */
  function ForegroundStep(d: DaemonState, ownPid: nat, writeOk: bool): (s: Step)
    requires ownPid < U32Limit
    ensures writeOk ==> s.outcome == Done && ReadPid(s.next.pidFile) == Ok(Some(ownPid))
    ensures !writeOk ==> s == Step(Failed(WriteError), d)
    ensures s.next.actions == d.actions
  {
    ReadAfterWrite(ownPid);
    if writeOk then Step(Done, d.(pidFile := Some(WritePid(ownPid)))) else Step(Failed(WriteError), d)
  }

  /** `stop`. Only a live recorded process is signalled; the file goes whenever it named a process. */
  function StopStep(d: DaemonState, w: World): (s: Step)
    ensures ReadPid(d.pidFile).Err? ==> s == Step(Failed(Unreadable), d)
    ensures d.pidFile.None? ==> s == Step(Failed(NotRunning), d)
    ensures forall p :: ReadPid(d.pidFile) == Ok(Some(p)) ==>
      (p !in w.live ==> s == Step(Failed(StalePid(p)), d.(pidFile := None)))
      && (p in w.live && !w.termOk ==> s == Step(Failed(SignalFailed(p)), d))
      && (p in w.live && w.termOk ==> s == Step(Done, DaemonState(None, d.actions + [Signalled(p)])))
    ensures s.outcome.Done? <==> exists p :: ReadPid(d.pidFile) == Ok(Some(p)) && p in w.live && w.termOk
  {
    match ReadPid(d.pidFile)
    case Err(_) => Step(Failed(Unreadable), d)
    case Ok(None) => Step(Failed(NotRunning), d)
    case Ok(Some(pid)) =>
      if pid !in w.live then Step(Failed(StalePid(pid)), d.(pidFile := None))
      else if !w.termOk then Step(Failed(SignalFailed(pid)), d)
      else Step(Done, DaemonState(None, d.actions + [Signalled(pid)]))
  }

  /** `restart`: signal a live recorded process, drop any PID file, then always spawn. */
  function RestartStep(d: DaemonState, w: World): (s: Step)
    ensures ReadPid(d.pidFile).Err? ==> s == Step(Failed(Unreadable), d)
    ensures d.pidFile.None? ==> s == SpawnStep(d, w)
    ensures forall p :: ReadPid(d.pidFile) == Ok(Some(p)) ==>
      (p !in w.live ==> s == SpawnStep(d.(pidFile := None), w))
      && (p in w.live && !w.termOk ==> s == Step(Failed(SignalFailed(p)), d))
      && (p in w.live && w.termOk ==> s == SpawnStep(DaemonState(None, d.actions + [Signalled(p)]), w))
  {
    match ReadPid(d.pidFile)
    case Err(_) => Step(Failed(Unreadable), d)
    case Ok(None) => SpawnStep(d, w)
    case Ok(Some(pid)) =>
      if pid in w.live then
        if !w.termOk then Step(Failed(SignalFailed(pid)), d)
        else SpawnStep(DaemonState(None, d.actions + [Signalled(pid)]), w)
      else SpawnStep(d.(pidFile := None), w)
  }

  datatype Report = Stopped | Running(pid: nat) | StaleFile(pid: nat)

  /** `status`: what it reports; it changes nothing. */
  function StatusOf(d: DaemonState, live: set<nat>): (r: Result<Report>)
    ensures r.Err? <==> ReadPid(d.pidFile).Err?
    ensures r == Ok(Stopped) <==> d.pidFile.None?
    ensures forall p :: r == Ok(Running(p)) <==> ReadPid(d.pidFile) == Ok(Some(p)) && p in live
    ensures forall p :: r == Ok(StaleFile(p)) <==> ReadPid(d.pidFile) == Ok(Some(p)) && p !in live
  {
    match ReadPid(d.pidFile)
    case Err(e) => Err(e)
    case Ok(None) => Ok(Stopped)
    case Ok(Some(pid)) => if pid in live then Ok(Running(pid)) else Ok(StaleFile(pid))
  }

  /** `handle_sigterm`: the daemon removes its PID file, then exits. */
  function SigtermStep(d: DaemonState): (d': DaemonState)
    ensures d'.pidFile.None? && d'.actions == d.actions
  {
    d.(pidFile := None)
  }

  /** A foreground daemon that is alive can be stopped: it is signalled and its file removed. */
  lemma ForegroundThenStop(d: DaemonState, ownPid: nat, w: World)
    requires ownPid < U32Limit && ownPid in w.live && w.termOk
    ensures var s := ForegroundStep(d, ownPid, true);
      StopStep(s.next, w) == Step(Done, DaemonState(None, d.actions + [Signalled(ownPid)]))
  {
    ReadAfterWrite(ownPid);
  }

  /** A foreground daemon reports as running while its process is alive, stale after it died. */
  lemma ForegroundThenStatus(d: DaemonState, ownPid: nat, live: set<nat>)
    requires ownPid < U32Limit
    ensures StatusOf(ForegroundStep(d, ownPid, true).next, live) == if ownPid in live then Ok(Running(ownPid)) else Ok(StaleFile(ownPid))
  {
    ReadAfterWrite(ownPid);
  }

  /** After a stop that got as far as the recorded PID, a second stop finds no daemon. */
  lemma StopTwice(d: DaemonState, w1: World, w2: World)
    requires StopStep(d, w1).outcome.Done? || StopStep(d, w1).outcome.why.StalePid?
    ensures StopStep(StopStep(d, w1).next, w2) == Step(Failed(NotRunning), StopStep(d, w1).next)
  {
  }

  /** Starting while the recorded daemon is alive fails and changes nothing. */
  lemma StartWhileAlive(d: DaemonState, pid: nat, w: World)
    requires pid < U32Limit && pid in w.live
    ensures StartStep(DaemonState(Some(WritePid(pid)), d.actions), w) ==
      Step(Failed(AlreadyRunning(pid)), DaemonState(Some(WritePid(pid)), d.actions))
  {
    ReadAfterWrite(pid);
  }

  /** A stale PID file does not block `start`: it is removed and a daemon spawned. */
  lemma StaleThenStart(d: DaemonState, pid: nat, w: World)
    requires pid < U32Limit && pid !in w.live && w.spawnOk
    ensures StartStep(DaemonState(Some(WritePid(pid)), d.actions), w) == Step(Done, DaemonState(None, d.actions + [SpawnedDaemon]))
  {
    ReadAfterWrite(pid);
  }

  /** A readable `restart` that gets past signalling always ends without a PID file and spawns. */
  lemma RestartSpawns(d: DaemonState, w: World)
    requires ReadPid(d.pidFile).Ok? && w.spawnOk
    requires forall p :: ReadPid(d.pidFile) == Ok(Some(p)) && p in w.live ==> w.termOk
    ensures var s := RestartStep(d, w);
      && s.outcome == Done && s.next.pidFile.None?
      && |s.next.actions| > 0 && s.next.actions[|s.next.actions| - 1] == SpawnedDaemon
  {
  }

  /** Once the daemon handled SIGTERM, status reports it stopped. */
  lemma SigtermThenStatus(d: DaemonState, live: set<nat>)
    ensures StatusOf(SigtermStep(d), live) == Ok(Stopped)
  {
  }

  /** `DaemonManager` over its PID file, recording what it does to other processes. */
  class DaemonManager {
    var pidFile: Option<string>
    var actions: seq<Action>

    constructor (file: Option<string>)
      ensures pidFile == file && actions == []
    {
      pidFile := file;
      actions := [];
    }

    function State(): DaemonState
      reads this
    {
      DaemonState(pidFile, actions)
    }

    /** `read_pid`. */
    method ReadPidFile() returns (r: Result<Option<nat>>)
      ensures r == ReadPid(pidFile)
    {
      if pidFile.None? {
        return Ok(None);
      }
      var parsed := ParseU32(Trim(pidFile.value));
      if parsed.Err? {
        return Err(parsed.error);
      }
      r := Ok(Some(parsed.value));
    }

    /** `spawn_detached`. */
    method SpawnDetached(w: World) returns (r: Outcome)
      modifies this`actions
      ensures Step(r, State()) == SpawnStep(old(State()), w)
    {
      if !w.spawnOk {
        return Failed(SpawnError);
      }
      actions := actions + [SpawnedDaemon];
      r := Done;
    }

    /** `start`: the foreground path records the own PID, the other spawns a detached daemon. */
    method Start(foreground: bool, w: World, ownPid: nat, writeOk: bool) returns (r: Outcome)
      requires ownPid < U32Limit
      modifies this
      ensures foreground ==> Step(r, State()) == ForegroundStep(old(State()), ownPid, writeOk)
      ensures !foreground ==> Step(r, State()) == StartStep(old(State()), w)
    {
      if foreground {
        if !writeOk {
          return Failed(WriteError);
        }
        pidFile := Some(WritePid(ownPid));
        return Done;
      }
      var read := ReadPidFile();
      if read.Err? {
        return Failed(Unreadable);
      }
      if read.value.Some? {
        var pid := read.value.value;
        if pid in w.live {
          return Failed(AlreadyRunning(pid));
        }
        pidFile := None;
      }
      r := SpawnDetached(w);
    }

    /** `stop`. */
    method Stop(w: World) returns (r: Outcome)
      modifies this
      ensures Step(r, State()) == StopStep(old(State()), w)
    {
      var read := ReadPidFile();
      if read.Err? {
        return Failed(Unreadable);
      }
      if read.value.None? {
        return Failed(NotRunning);
      }
      var pid := read.value.value;
      if pid !in w.live {
        pidFile := None;
        return Failed(StalePid(pid));
      }
      if !w.termOk {
        return Failed(SignalFailed(pid));
      }
      actions := actions + [Signalled(pid)];
      pidFile := None;
      r := Done;
    }

    /** `restart`. */
    method Restart(w: World) returns (r: Outcome)
      modifies this
      ensures Step(r, State()) == RestartStep(old(State()), w)
    {
      var read := ReadPidFile();
      if read.Err? {
        return Failed(Unreadable);
      }
      if read.value.Some? {
        var pid := read.value.value;
        if pid in w.live {
          if !w.termOk {
            return Failed(SignalFailed(pid));
          }
          actions := actions + [Signalled(pid)];
        }
        pidFile := None;
      }
      r := SpawnDetached(w);
    }

    /** `status`. */
    method Status(live: set<nat>) returns (r: Result<Report>)
      ensures r == StatusOf(State(), live)
    {
      var read := ReadPidFile();
      if read.Err? {
        return Err(read.error);
      }
      if read.value.None? {
        return Ok(Stopped);
      }
      var pid := read.value.value;
      r := if pid in live then Ok(Running(pid)) else Ok(StaleFile(pid));
    }

    /** `handle_sigterm`. */
    method HandleSigterm()
      modifies this`pidFile
      ensures State() == SigtermStep(old(State()))
    {
      pidFile := None;
    }
  }

  datatype TriggerKind = WeatherKind | DayTimeKind | StaticKind

  /** The exclusive choice of `build_trigger_manager`: weather, else day/night, else static. */
  function SelectTrigger(config: Config.Config): (k: TriggerKind)
    ensures k == WeatherKind <==> config.weather.Some?
    ensures k == DayTimeKind <==> config.weather.None? && config.timeConfig.Some?
    ensures k == StaticKind <==> config.weather.None? && config.timeConfig.None?
  {
    if config.weather.Some? then WeatherKind
    else if config.timeConfig.Some? then DayTimeKind
    else StaticKind
  }

  function KindOf(t: Scheduler.AnyTrigger): TriggerKind {
    match t
    case StaticT(_) => StaticKind
    case DayTimeT(_) => DayTimeKind
    case WeatherT(_) => WeatherKind
  }

  /** `build_trigger_manager`: a manager holding exactly the selected trigger, due at once. */
  method BuildTriggerManager(config: Config.Config, now: int) returns (m: Scheduler.TriggerManager)
    ensures fresh(m)
    ensures |m.triggers| == 1 && m.triggers[0].nextRun == now
    ensures KindOf(m.triggers[0].trigger) == SelectTrigger(config)
    ensures fresh(m.triggers[0].trigger.Obj())
  {
    m := new Scheduler.TriggerManager();
    var t: Scheduler.AnyTrigger;
    if config.weather.Some? {
      var w := new Weather.WeatherTrigger();
      t := Scheduler.WeatherT(w);
    } else if config.timeConfig.Some? {
      var d := new DayTime.DayTimeTrigger();
      t := Scheduler.DayTimeT(d);
    } else {
      var s := new StaticTriggers.StaticTrigger();
      t := Scheduler.StaticT(s);
    }
    m.Add(t, now);
  }
}
