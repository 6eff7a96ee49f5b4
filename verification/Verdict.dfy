/**
 From script outcomes to the vote (rallyci/runners/ssh.py: run; rallyci/job.py: set_status
 and run; rallyci/task.py: publish_results).

 An Env says what the outside world does to one job: how long each remote step takes and how
 it ends, and which calls of the update handlers raise. Theorems are for every Env.
 */
module Verdict {
  import opened Options

  /** Exceptions, as far as Job.run tells them apart. */
  datatype Exc = Timeout | Cancelled | Other

  datatype End = Done | SshError | Raised(exc: Exc)

  datatype Step = Step(name: string, end: End, time: real)

  datatype Env = Env(
    early: bool,                       // cancelled before its first step
    instance: Option<Exc>,             // the runner's constructor raises
    minutes: Option<real>,             // the job's `timeout` setting
    tie: bool,                         // whether the timer wins when a step ends just in time
    provider: Step,                    // getting the VMs
    vms: seq<seq<Step>>,               // the scripts of each VM
    handlers: nat -> Option<Exc>)      // what the n-th update of the job's status raises

  datatype RunnerEnd = Returned(error: Option<int>) | Failed(exc: Exc)

  // ---------------------------------------------------------------- specification

  function Deadline(env: Env): real {
    60.0 * (if env.minutes.Some? then env.minutes.value else 90.0)
  }

  function Flat(vms: seq<seq<Step>>): seq<Step>
    decreases |vms|
  {
    if vms == [] then [] else Flat(vms[..|vms| - 1]) + vms[|vms| - 1]
  }

  /** Everything the runner waits for, in order: step 0 gets the VMs, the rest are scripts.
      The status update for script k is update k; update 0 is "queued". */
  function Steps(env: Env): (steps: seq<Step>)
    ensures |steps| > 0
  {
    [env.provider] + Flat(env.vms)
  }

  function Elapsed(steps: seq<Step>): real
    decreases |steps|
  {
    if steps == [] then 0.0 else Elapsed(steps[..|steps| - 1]) + steps[|steps| - 1].time
  }

  predicate InTime(env: Env, now: real) {
    now < Deadline(env) || (now == Deadline(env) && !env.tie)
  }

  predicate StepInTime(env: Env, k: nat)
    requires k < |Steps(env)|
  {
    InTime(env, Elapsed(Steps(env)[..k + 1]))
  }

  /** How step k ends for the runner. */
  function EndOf(env: Env, k: nat): End
    requires k < |Steps(env)|
  {
    if StepInTime(env, k) then Steps(env)[k].end else Raised(Timeout)
  }

  predicate Clean(env: Env, k: nat)
    requires k < |Steps(env)|
  {
    EndOf(env, k).Done? && (k > 0 ==> env.handlers(k).None?)
  }

  /** The first step from k on that is not clean, or the number of steps. */
  function FirstUnclean(env: Env, k: nat): (first: nat)
    requires k <= |Steps(env)|
    ensures k <= first <= |Steps(env)|
    ensures forall j :: k <= j < first ==> Clean(env, j)
    ensures first < |Steps(env)| ==> !Clean(env, first)
    decreases |Steps(env)| - k
  {
    if k == |Steps(env)| || !Clean(env, k) then k else FirstUnclean(env, k + 1)
  }

  ghost predicate ScriptsAt(env: Env, first: nat, scripts: seq<Step>) {
    first + |scripts| <= |Steps(env)| && forall j :: 0 <= j < |scripts| ==> Steps(env)[first + j] == scripts[j]
  }

  /** The steps before k went well. */
  ghost predicate AtStep(env: Env, k: nat, updates: nat, now: real) {
    k <= |Steps(env)| && updates == k && now == Elapsed(Steps(env)[..k]) && FirstUnclean(env, k) == FirstUnclean(env, 0)
  }

  /** Only an SSHError of a script makes the runner return 1. */
  function Failure(env: Env, k: nat): RunnerEnd
    requires k < |Steps(env)|
  {
    if k > 0 && env.handlers(k).Some? then Failed(env.handlers(k).value)
    else match EndOf(env, k)
      case Raised(exc) => Failed(exc)
      case SshError => if k > 0 then Returned(Some(1)) else Failed(Other)
      case Done => Returned(None)
  }

  function RunnerOf(env: Env): RunnerEnd {
    var k := FirstUnclean(env, 0);
    if k == |Steps(env)| then Returned(None) else Failure(env, k)
  }

  /** How many updates are made before the final one. */
  function Updates(env: Env): nat {
    var k := FirstUnclean(env, 0);
    if k == |Steps(env)| || k == 0 then (if k == 0 then 1 else k) else k + 1
  }

  // ---------------------------------------------------------------- the job

  function Caught(exc: Exc): string {
    match exc
    case Timeout => "TIMEOUT"
    case Cancelled => "CANCELLED"
    case Other => "ERROR"
  }

  predicate Falsy(error: Option<int>) {
    error.None? || error.value == 0
  }

  /** What is left of a job when it is done. */
  datatype JobEnd = JobEnd(voting: bool, status: string, error: Option<int>, started: bool)

  class Job {
    var voting: bool
    var error: Option<int>
    var status: string
    var started: bool                  // started_at is set
    var updates: nat                   // how often the update handlers were called

    constructor (voting: bool)
      ensures this.voting == voting && error == Some(254) && status == "__init__" && !started && updates == 0
    {
      this.voting, error, status, started, updates := voting, Some(254), "__init__", false, 0;
    }

    function View(): JobEnd
      reads this
    {
      JobEnd(voting, status, error, started)
    }

    method SetStatus(st: string, env: Env) returns (raised: Option<Exc>)
      modifies this
      ensures View() == old(View()).(status := st) && updates == old(updates) + 1
      ensures raised == env.handlers(old(updates))
    {
      status := st;
      raised := env.handlers(updates);
      updates := updates + 1;
    }

    /** One turn of the inner loop: script k, at time `now`. */
    method RunScript(env: Env, script: Step, now: real, ghost k: nat) returns (r: Option<RunnerEnd>, later: real)
      requires 0 < k < |Steps(env)| && script == Steps(env)[k] && AtStep(env, k, updates, now)
      modifies this
      ensures r == (if Clean(env, k) then None else Some(Failure(env, k)))
      ensures r.None? ==> AtStep(env, k + 1, updates, later)
      ensures r.Some? ==> r.value == RunnerOf(env) && updates == Updates(env)
      ensures View() == old(View()).(status := script.name)
    {
      ElapsedNext(Steps(env), k);
      later := now + script.time;
      var raised := SetStatus(script.name, env);
      if raised.Some? {
        r := Some(Failed(raised.value));
      } else if !InTime(env, later) {
        r := Some(Failed(Timeout));
      } else {
        match script.end
        case Done => r := None;
        case Raised(exc) => r := Some(Failed(exc));
        case SshError => r := Some(Returned(Some(1)));
      }
    }

    /** The call of the provider's get_vms. */
    method GetVms(env: Env) returns (r: Option<RunnerEnd>, now: real)
      ensures r == (if Clean(env, 0) then None else Some(Failure(env, 0)))
      ensures r.None? ==> AtStep(env, 1, 1, now)
      ensures r.Some? ==> r.value == RunnerOf(env) && Updates(env) == 1
    {
      now := env.provider.time;
      assert Steps(env)[..1] == [env.provider];
      ElapsedOne(env.provider);
      if !InTime(env, now) {
        r := Some(Failed(Timeout));
      } else {
        match env.provider.end
        case Done => r := None;
        case Raised(exc) => r := Some(Failed(exc));
        case SshError => r := Some(Failed(Other));
      }
    }

    /** The scripts of one VM; its first script is step `first`. */
    method RunVm(env: Env, scripts: seq<Step>, now: real, ghost first: nat) returns (r: Option<RunnerEnd>, later: real)
      requires 0 < first && ScriptsAt(env, first, scripts)
      requires AtStep(env, first, updates, now)
      modifies this
      ensures View() == old(View()).(status := status)
      ensures r.None? ==> AtStep(env, first + |scripts|, updates, later)
      ensures r.Some? ==> r.value == RunnerOf(env) && updates == Updates(env)
    {
      later := now;
      for j := 0 to |scripts|
        invariant View() == old(View()).(status := status)
        invariant AtStep(env, first + j, updates, later)
      {
        r, later := RunScript(env, scripts[j], later, first + j);
        if r.Some? {
          return;
        }
      }
      r := None;
    }

    /** The runner: get the VMs, then each script of each VM, until one fails. */
    method RunScripts(env: Env) returns (r: RunnerEnd)
      requires updates == 1
      modifies this
      ensures r == RunnerOf(env) && updates == Updates(env)
      ensures View() == old(View()).(status := status)
    {
      var stop, now := GetVms(env);
      if stop.Some? {
        return stop.value;
      }
      for i := 0 to |env.vms|
        invariant View() == old(View()).(status := status)
        invariant AtStep(env, VmStart(env, i), updates, now)
      {
        StepsSlice(env, i);
        stop, now := RunVm(env, env.vms[i], now, VmStart(env, i));
        if stop.Some? {
          return stop.value;
        }
      }
      AllRun(env, updates, now);
      return Returned(None);
    }

    /** Job.run: `raised` is what it raises to run_obj. */
    method Run(env: Env) returns (raised: Option<Exc>)
      requires View() == JobEnd(voting, "__init__", Some(254), false) && updates == 0
      modifies this
      ensures View() == Ended(old(voting), env)
    {
      if env.early {
        return Some(Cancelled);
      }
      raised := SetStatus("queued", env);
      if raised.Some? {
        return;
      }
      started := true;
      if env.instance.Some? {
        return env.instance;
      }
      var r := RunScripts(env);
      match r
      case Returned(e) =>
        error := e;
        raised := SetStatus(if Falsy(e) then "SUCCESS" else "FAILURE", env);
        if raised.Some? {
          raised := SetStatus(Caught(raised.value), env);
        }
      case Failed(exc) =>
        raised := SetStatus(Caught(exc), env);
    }
  }

  /** The state Job.run leaves behind. */
  function Ended(voting: bool, env: Env): JobEnd {
    if env.early then JobEnd(voting, "__init__", Some(254), false)
    else if env.handlers(0).Some? then JobEnd(voting, "queued", Some(254), false)
    else if env.instance.Some? then JobEnd(voting, "queued", Some(254), true)
    else match RunnerOf(env)
      case Failed(exc) => JobEnd(voting, Caught(exc), Some(254), true)
      case Returned(e) =>
        var late := env.handlers(Updates(env));
        var status := if late.Some? then Caught(late.value) else if Falsy(e) then "SUCCESS" else "FAILURE";
        JobEnd(voting, status, e, true)
  }

  lemma ElapsedOne(step: Step)
    ensures Elapsed([step]) == step.time
  {
    assert [step][..0] == [];
    assert Elapsed([step][..0]) == 0.0;
  }

  lemma ElapsedNext(steps: seq<Step>, k: nat)
    requires k < |steps|
    ensures Elapsed(steps[..k + 1]) == Elapsed(steps[..k]) + steps[k].time
  {
    assert steps[..k + 1][..k] == steps[..k];
  }

  /** Where the scripts of VM i are in the whole list. */
  lemma {:induction false} FlatSlice(vms: seq<seq<Step>>, i: nat)
    requires i < |vms|
    ensures |Flat(vms[..i + 1])| == |Flat(vms[..i])| + |vms[i]| && |Flat(vms[..i + 1])| <= |Flat(vms)|
    ensures forall j :: 0 <= j < |vms[i]| ==> Flat(vms)[|Flat(vms[..i])| + j] == vms[i][j]
    decreases |vms|
  {
    if i == |vms| - 1 {
      assert vms[..i + 1] == vms;
    } else {
      var front := vms[..|vms| - 1];
      FlatSlice(front, i);
      assert front[..i] == vms[..i] && front[..i + 1] == vms[..i + 1];
    }
  }

  /** The step of the first script of VM i. */
  ghost function VmStart(env: Env, i: nat): (k: nat)
    requires i <= |env.vms|
    ensures k > 0
  {
    1 + |Flat(env.vms[..i])|
  }

  lemma StepsSlice(env: Env, i: nat)
    requires i < |env.vms|
    ensures VmStart(env, i + 1) == VmStart(env, i) + |env.vms[i]|
    ensures ScriptsAt(env, VmStart(env, i), env.vms[i])
  {
    FlatSlice(env.vms, i);
  }

  lemma AllRun(env: Env, updates: nat, now: real)
    requires AtStep(env, VmStart(env, |env.vms|), updates, now)
    ensures RunnerOf(env) == Returned(None) && Updates(env) == updates
  {
    assert env.vms[..|env.vms|] == env.vms;
  }
}
