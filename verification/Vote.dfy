/**
 The verdict of a task (rallyci/task.py: cleanup and publish_results) and what it says about
 the scripts, for every behaviour of the outside world.
 */
module Vote {
  import opened Options
  import opened Verdict

  /** The stream's settings that decide whether and how a review is sent, and whether the event
      has a patch set. */
  datatype Settings = Settings(silent: bool, header: string, vote: bool, template: Option<string>, patchSet: bool)

  datatype Review = Review(vote: Option<int>, succeeded: bool, lines: seq<string>)

  /** The error of a job that did not pass: anything but None and 0. */
  predicate Fails(j: JobEnd) {
    j.voting && !Falsy(j.error)
  }

  /** What is published of job i of `lines`. */
  predicate Published(lines: seq<string>, i: nat, voting: bool, status: string) {
    i < |lines| && lines[i] == if voting then status else status + " (non-voting)"
  }

  method Publish(cfg: Settings, jobs: seq<Job>) returns (review: Option<Review>)
    ensures review.Some? <==>
              && !cfg.silent && cfg.header != "" && cfg.template.Some? && cfg.patchSet
              && forall i :: 0 <= i < |jobs| ==> jobs[i].started
    ensures review.Some? ==>
              (review.value.succeeded <==>
                 forall i :: 0 <= i < |jobs| && jobs[i].voting ==> jobs[i].error == None || jobs[i].error == Some(0))
    ensures review.Some? ==>
        review.value.vote == (if !cfg.vote then None else Some(if review.value.succeeded then 1 else -1))
    ensures review.Some? ==> |review.value.lines| == |jobs| && forall i :: 0 <= i < |jobs| ==>
        Published(review.value.lines, i, jobs[i].voting, jobs[i].status)
  {
    if cfg.silent || cfg.header == "" {
      return None;
    }
    var fail := false;
    for i := 0 to |jobs|
      invariant fail <==> exists k :: 0 <= k < i && Fails(jobs[k].View())
    {
      if jobs[i].voting && !Falsy(jobs[i].error) {
        assert Fails(jobs[i].View());
        fail := true;
      }
    }
    var vote := None;
    if cfg.vote {
      vote := Some(if fail then -1 else 1);
    }
    if cfg.template.None? {
      return None;
    }
    var lines := [];
    for i := 0 to |jobs|
      invariant |lines| == i
      invariant forall k :: 0 <= k < i ==> jobs[k].started && Published(lines, k, jobs[k].voting, jobs[k].status)
    {
      if !jobs[i].started {
        return None;
      }
      lines := lines + [jobs[i].status + (if jobs[i].voting then "" else " (non-voting)")];
    }
    if !cfg.patchSet {
      return None;
    }
    return Some(Review(vote, !fail, lines));
  }

  // ---------------------------------------------------------------- one job

  predicate Timed(env: Env) {
    forall k :: 0 <= k < |Steps(env)| ==> Steps(env)[k].time >= 0.0
  }

  /** The VMs were provided, every script on every VM succeeded, all of it in time. */
  predicate AllScriptsPass(env: Env) {
    && env.provider.end.Done?
    && (forall i, j :: 0 <= i < |env.vms| && 0 <= j < |env.vms[i]| ==> env.vms[i][j].end.Done?)
    && InTime(env, Elapsed(Steps(env)))
  }

  /** The job's first step was taken and its runner constructed. */
  predicate Began(env: Env) {
    !env.early && env.instance.None?
  }

  /** A job has started, whatever becomes of it then, exactly when it took its first step and its
      first update raised nothing. */
  lemma StartedExactly(voting: bool, env: Env)
    ensures Ended(voting, env).started <==> !env.early && env.handlers(0).None?
    ensures Ended(voting, env).voting == voting
  {
  }

  /** The first `n` updates raise nothing. */
  predicate Quiet(env: Env, n: nat) {
    forall k :: 0 <= k < n ==> env.handlers(k).None?
  }

  lemma {:induction false} ElapsedGrows(steps: seq<Step>, k: nat)
    requires k <= |steps| && forall i :: 0 <= i < |steps| ==> steps[i].time >= 0.0
    ensures Elapsed(steps[..k]) <= Elapsed(steps)
    decreases |steps|
  {
    if k < |steps| {
      var front := steps[..|steps| - 1];
      ElapsedGrows(front, k);
      assert front[..k] == steps[..k];
    } else {
      assert steps[..k] == steps;
    }
  }

  lemma AllInTime(env: Env)
    requires Timed(env)
    ensures InTime(env, Elapsed(Steps(env))) <==> forall k :: 0 <= k < |Steps(env)| ==> StepInTime(env, k)
  {
    var steps := Steps(env);
    forall k | 0 <= k < |steps| ensures InTime(env, Elapsed(steps)) ==> StepInTime(env, k) {
      ElapsedGrows(steps, k + 1);
    }
    var last := |steps| - 1;
    assert steps[..last + 1] == steps;
    assert StepInTime(env, last) <==> InTime(env, Elapsed(steps));
  }

  /** The scripts run VM after VM, those of a VM in their order. */
  lemma {:induction false} FlatAdds(a: seq<seq<Step>>, b: seq<seq<Step>>)
    ensures Flat(a + b) == Flat(a) + Flat(b)
    decreases |b|
  {
    if b == [] {
      assert a + b == a && Flat(a) + [] == Flat(a);
    } else {
      var front := b[..|b| - 1];
      FlatAdds(a, front);
      assert (a + b)[..|a + b| - 1] == a + front;
    }
  }

  lemma FlatOne(scripts: seq<Step>)
    ensures Flat([scripts]) == scripts
  {
    assert [scripts][..0] == [] && Flat([]) == [] && [] + scripts == scripts;
  }

  /** The time of a run of steps is the sum of their times. */
  lemma {:induction false} ElapsedAdds(a: seq<Step>, b: seq<Step>)
    ensures Elapsed(a + b) == Elapsed(a) + Elapsed(b)
    decreases |b|
  {
    if b == [] {
      assert a + b == a;
    } else {
      var front := b[..|b| - 1];
      ElapsedAdds(a, front);
      assert (a + b)[..|a + b| - 1] == a + front;
    }
  }

  /** A job passes only within its own timeout in minutes, or within 5400 seconds without one. */
  lemma PassesInTime(env: Env)
    requires AllScriptsPass(env)
    ensures env.minutes.Some? ==> Elapsed([env.provider] + Flat(env.vms)) <= 60.0 * env.minutes.value
    ensures env.minutes.None? ==> Elapsed([env.provider] + Flat(env.vms)) <= 5400.0
  {
  }

  /** One that passes all its scripts in less time does pass. */
  lemma InTimePasses(env: Env)
    requires env.provider.end.Done?
    requires forall i, j :: 0 <= i < |env.vms| && 0 <= j < |env.vms[i]| ==> env.vms[i][j].end.Done?
    requires Elapsed([env.provider] + Flat(env.vms)) < if env.minutes.Some? then 60.0 * env.minutes.value else 5400.0
    ensures AllScriptsPass(env)
  {
  }

  lemma {:induction false} FlatDone(vms: seq<seq<Step>>)
    ensures (forall k :: 0 <= k < |Flat(vms)| ==> Flat(vms)[k].end.Done?) <==>
            forall i, j :: 0 <= i < |vms| && 0 <= j < |vms[i]| ==> vms[i][j].end.Done?
    decreases |vms|
  {
    if vms != [] {
      var front, last := vms[..|vms| - 1], vms[|vms| - 1];
      FlatDone(front);
      var f := Flat(front);
      assert forall k :: 0 <= k < |f| ==> Flat(vms)[k] == f[k];
      assert forall j :: 0 <= j < |last| ==> Flat(vms)[|f| + j] == last[j];
      assert forall i :: 0 <= i < |front| ==> front[i] == vms[i];
    }
  }

  lemma StepsDone(env: Env)
    ensures (forall k :: 0 <= k < |Steps(env)| ==> Steps(env)[k].end.Done?) <==>
            env.provider.end.Done? && forall i, j :: 0 <= i < |env.vms| && 0 <= j < |env.vms[i]| ==>
                env.vms[i][j].end.Done?
  {
    FlatDone(env.vms);
    var steps, f := Steps(env), Flat(env.vms);
    assert steps[0] == env.provider;
    assert forall k :: 0 < k < |steps| ==> steps[k] == f[k - 1];
    assert forall k :: 0 <= k < |f| ==> f[k] == steps[k + 1];
  }

  lemma CleanExactly(env: Env)
    requires env.handlers(0).None?
    ensures (forall k :: 0 <= k < |Steps(env)| ==> Clean(env, k)) <==>
            && (forall k :: 0 <= k < |Steps(env)| ==> StepInTime(env, k))
            && (forall k :: 0 <= k < |Steps(env)| ==> Steps(env)[k].end.Done?)
            && Quiet(env, |Steps(env)|)
  {
    forall k | 0 <= k < |Steps(env)|
      ensures Clean(env, k) <==> StepInTime(env, k) && Steps(env)[k].end.Done? && env.handlers(k).None?
    {
    }
  }

  /** The runner returns None exactly when every script passes and no update on the way raises. */
  lemma RunnerExactly(env: Env)
    requires Timed(env) && env.handlers(0).None?
    ensures RunnerOf(env) == Returned(None) <==> AllScriptsPass(env) && Quiet(env, |Steps(env)|)
    ensures RunnerOf(env) == Returned(None) ==> Updates(env) == |Steps(env)|
  {
    AllInTime(env);
    StepsDone(env);
    CleanExactly(env);
  }

  /** The error is cleared exactly when the job began, every script passed in time, and the
      updates up to the last script raised nothing. */
  lemma ErrorExactly(voting: bool, env: Env)
    requires Timed(env)
    ensures Falsy(Ended(voting, env).error) <==> Began(env) && AllScriptsPass(env) && Quiet(env, |Steps(env)|)
  {
    if env.handlers(0).None? {
      RunnerExactly(env);
    }
  }

  /** SUCCESS needs one more quiet update, the final one. */
  lemma StatusExactly(voting: bool, env: Env)
    requires Timed(env)
    ensures Ended(voting, env).status == "SUCCESS" <==>
        Began(env) && AllScriptsPass(env) && Quiet(env, |Steps(env)| + 1)
  {
    if env.handlers(0).None? {
      RunnerExactly(env);
    }
  }

  /** With quiet updates, the status tells what became of the first step that was not clean. */
  lemma StatusMeaning(voting: bool, env: Env)
    requires Began(env) && forall k :: env.handlers(k).None?
    ensures var k := FirstUnclean(env, 0);
            var status := Ended(voting, env).status;
            && (status == "SUCCESS" <==> k == |Steps(env)|)
            && (status == "TIMEOUT" <==>
                k < |Steps(env)| && (!StepInTime(env, k) || Steps(env)[k].end == Raised(Timeout)))
            && (status == "FAILURE" <==> 0 < k < |Steps(env)| && StepInTime(env, k) && Steps(env)[k].end.SshError?)
            && (status == "CANCELLED" <==>
                k < |Steps(env)| && StepInTime(env, k) && Steps(env)[k].end == Raised(Cancelled))
            && (status == "ERROR" <==>
                k < |Steps(env)| && StepInTime(env, k)
                && (Steps(env)[k].end == Raised(Other) || (k == 0 && Steps(env)[k].end.SshError?)))
  {
    var k := FirstUnclean(env, 0);
    if k < |Steps(env)| {
      assert !Clean(env, k);
    }
  }

  // ---------------------------------------------------------------- the whole task

  /** A job of the task and what the world does to it. */
  datatype JobRun = JobRun(voting: bool, env: Env)

  function EndOfRun(run: JobRun): JobEnd {
    Ended(run.voting, run.env)
  }

  predicate Accepted(runs: seq<JobRun>) {
    forall i :: 0 <= i < |runs| ==> !Fails(EndOfRun(runs[i]))
  }

  predicate VotersSucceed(runs: seq<JobRun>) {
    forall i :: 0 <= i < |runs| && runs[i].voting ==> EndOfRun(runs[i]).status == "SUCCESS"
  }

  predicate AllTimed(runs: seq<JobRun>) {
    forall i :: 0 <= i < |runs| ==> Timed(runs[i].env)
  }

  predicate VoterPasses(run: JobRun) {
    run.voting ==> Began(run.env) && AllScriptsPass(run.env) && Quiet(run.env, |Steps(run.env)|)
  }

  /** Every script passed, but the update that announces it raises. */
  predicate LateRaise(run: JobRun) {
    run.voting && run.env.handlers(|Steps(run.env)|).Some?
  }

  /** The task is accepted exactly when every voting job ran all its scripts without error in time. */
  lemma VoteEndToEnd(runs: seq<JobRun>)
    requires AllTimed(runs)
    ensures Accepted(runs) <==> forall i :: 0 <= i < |runs| ==> VoterPasses(runs[i])
  {
    forall i | 0 <= i < |runs| ensures !Fails(EndOfRun(runs[i])) <==> VoterPasses(runs[i]) {
      ErrorExactly(runs[i].voting, runs[i].env);
    }
  }

  /** The vote agrees with the published statuses if and only if it is not the case that all voting
      jobs pass while the last update of one of them raises. */
  lemma VoteMatchesStatus(runs: seq<JobRun>)
    requires AllTimed(runs)
    ensures (Accepted(runs) <==> VotersSucceed(runs)) <==>
            !(&& (forall i :: 0 <= i < |runs| ==> VoterPasses(runs[i]))
              && (exists i :: 0 <= i < |runs| && LateRaise(runs[i])))
  {
    VoteEndToEnd(runs);
    forall i | 0 <= i < |runs|
      ensures (runs[i].voting ==> EndOfRun(runs[i]).status == "SUCCESS") <==>
          VoterPasses(runs[i]) && !LateRaise(runs[i])
    {
      StatusExactly(runs[i].voting, runs[i].env);
    }
  }

  /** The jobs of a task run, whatever happens to each, and the result is published. Jobs share no state,
      so their order does not matter. */
  method RunTask(cfg: Settings, runs: seq<JobRun>) returns (review: Option<Review>)
    requires AllTimed(runs)
    ensures review.Some? <==>
              && !cfg.silent && cfg.header != "" && cfg.template.Some? && cfg.patchSet
              && forall i :: 0 <= i < |runs| ==> !runs[i].env.early && runs[i].env.handlers(0).None?
    ensures review.Some? && cfg.vote ==> review.value.vote == Some(1) || review.value.vote == Some(-1)
    ensures review.Some? && cfg.vote ==>
        (review.value.vote == Some(1) <==> forall i :: 0 <= i < |runs| ==> VoterPasses(runs[i]))
    ensures review.Some? ==> |review.value.lines| == |runs| && forall i :: 0 <= i < |runs| ==>
        Published(review.value.lines, i, runs[i].voting, EndOfRun(runs[i]).status)
  {
    var jobs: seq<Job> := [];
    for i := 0 to |runs|
      invariant |jobs| == i && forall k :: 0 <= k < i ==> fresh(jobs[k]) && jobs[k].View() == EndOfRun(runs[k])
    {
      var job := new Job(runs[i].voting);
      var _ := job.Run(runs[i].env);
      jobs := jobs + [job];
    }
    review := Publish(cfg, jobs);
    VoteEndToEnd(runs);
    forall i | 0 <= i < |runs| ensures !Fails(EndOfRun(runs[i])) <==> !Fails(jobs[i].View()) {
    }
    forall i | 0 <= i < |runs|
      ensures EndOfRun(runs[i]).voting == runs[i].voting
      ensures EndOfRun(runs[i]).started <==> !runs[i].env.early && runs[i].env.handlers(0).None?
    {
      StartedExactly(runs[i].voting, runs[i].env);
    }
  }

  function Voters(runs: seq<JobRun>): seq<JobRun> {
    if runs == [] then [] else (if runs[0].voting then [runs[0]] else []) + Voters(runs[1..])
  }

  lemma AcceptedFirst(run: JobRun, rest: seq<JobRun>)
    ensures Accepted([run] + rest) <==> !Fails(EndOfRun(run)) && Accepted(rest)
  {
    var runs := [run] + rest;
    assert runs[0] == run;
    assert forall i :: 0 < i < |runs| ==> runs[i] == rest[i - 1];
    assert forall i :: 0 <= i < |rest| ==> rest[i] == runs[i + 1];
  }

  /** Non-voting jobs do not matter. */
  lemma {:induction false} OnlyVotersCount(runs: seq<JobRun>)
    ensures Accepted(runs) <==> Accepted(Voters(runs))
  {
    if runs != [] {
      OnlyVotersCount(runs[1..]);
      AcceptedFirst(runs[0], runs[1..]);
      assert runs == [runs[0]] + runs[1..];
      if runs[0].voting {
        AcceptedFirst(runs[0], Voters(runs[1..]));
      } else {
        assert Voters(runs) == Voters(runs[1..]);
      }
    }
  }

  /** One job with one script that passes, and an update handler that raises on the last update. */
  function Announced(): JobRun {
    JobRun(true, Env(false, None, None, false, Step("", Done, 60.0), [[Step("unit", Done, 60.0)]],
                     (n: nat) => if n == 2 then Some(Other) else None))
  }

  lemma AnnouncedSteps()
    ensures var env := Announced().env;
            |Steps(env)| == 2 && Timed(env) && Elapsed(Steps(env)) == 120.0
  {
    var env := Announced().env;
    assert Flat(env.vms) == env.vms[0] by {
      assert env.vms[..0] == [];
    }
    var steps := Steps(env);
    assert steps == [Step("", Done, 60.0), Step("unit", Done, 60.0)];
    ElapsedOne(steps[0]);
    assert steps[..1] == [steps[0]];
  }

  /** +1 for a job that is published as an error. */
  lemma HandlerCanSplitVote()
    ensures Accepted([Announced()]) && EndOfRun(Announced()).status == "ERROR"
  {
    AnnouncedSteps();
    RunnerExactly(Announced().env);
  }
}
