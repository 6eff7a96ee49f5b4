/**
 Admission of requests to hosts (rallyci/providers/virsh.py: Provider.get_vms): how a host is
 chosen, and how admissions are spaced in time over all concurrent callers.
 */
module Admission {
  import opened Options

  datatype Config = Config(freemb: Option<int>, maxla: Option<real>, memory: map<string, int>)

  function FreeMb(cfg: Config): int {
    if cfg.freemb.Some? then cfg.freemb.value else 1024
  }

  function MaxLa(cfg: Config): real {
    if cfg.maxla.Some? then cfg.maxla.value else 4.0
  }

  // ---------------------------------------------------------------- the choice of a host

  predicate Configured(cfg: Config, names: seq<string>) {
    forall i :: 0 <= i < |names| ==> names[i] in cfg.memory
  }

  function Total(cfg: Config, names: seq<string>): int
    requires Configured(cfg, names)
    decreases |names|
  {
    if names == [] then 0 else Total(cfg, names[..|names| - 1]) + cfg.memory[names[|names| - 1]]
  }

  /** The total is the sum over the VMs, each counted as often as it is asked for. */
  lemma {:induction false} TotalAdds(cfg: Config, a: seq<string>, b: seq<string>)
    requires Configured(cfg, a) && Configured(cfg, b)
    ensures Configured(cfg, a + b) && Total(cfg, a + b) == Total(cfg, a) + Total(cfg, b)
    decreases |b|
  {
    if b == [] {
      assert a + b == a;
    } else {
      var front := b[..|b| - 1];
      TotalAdds(cfg, a, front);
      assert (a + b)[..|a + b| - 1] == a + front;
    }
  }

  lemma TotalOne(cfg: Config, name: string)
    requires name in cfg.memory
    ensures Configured(cfg, [name]) && Total(cfg, [name]) == cfg.memory[name]
  {
    assert [name][..0] == [];
  }

  /** None is the KeyError for a VM that is not configured. */
  method MemoryRequired(cfg: Config, names: seq<string>) returns (mb: Option<int>)
    ensures mb.Some? <==> Configured(cfg, names)
    ensures mb.Some? ==> mb.value == (if cfg.freemb.Some? then cfg.freemb.value else 1024) + Total(cfg, names)
  {
    var sum := FreeMb(cfg);
    for i := 0 to |names|
      invariant Configured(cfg, names[..i]) && sum == FreeMb(cfg) + Total(cfg, names[..i])
    {
      if names[i] !in cfg.memory {
        return None;
      }
      assert names[..i + 1][..i] == names[..i];
      sum := sum + cfg.memory[names[i]];
    }
    assert names[..|names|] == names;
    return Some(sum);
  }

  /** What update_stats finds on a host. */
  datatype Check = Check(host: nat, free: int, la: real)

  class Host {
    var free: int
    var la: real

    method UpdateStats(c: Check)
      modifies this
      ensures free == c.free && la == c.la
    {
      la := c.la;
      free := c.free;
    }
  }

  predicate Fits(cfg: Config, mb: int, c: Check) {
    c.free >= mb && c.la < MaxLa(cfg)
  }

  /** Enough memory, and a load below the limit, which is 4 if none is set. */
  lemma FitsExactly(cfg: Config, mb: int, c: Check)
    ensures Fits(cfg, mb, c) <==>
              && mb <= c.free
              && (cfg.maxla.Some? ==> c.la < cfg.maxla.value) && (cfg.maxla.None? ==> c.la < 4.0)
  {
  }

  predicate NoneFits(cfg: Config, mb: int, round: seq<Check>) {
    forall i :: 0 <= i < |round| ==> !Fits(cfg, mb, round[i])
  }

  predicate RoundOk(hosts: seq<Host>, round: seq<Check>) {
    forall i :: 0 <= i < |round| ==> round[i].host < |hosts|
  }

  /** The inner loop: hosts are checked in the round's order up to the first that fits. The caller
      goes on with the loop variable `host`. */
  method CheckRound(hosts: seq<Host>, cfg: Config, mb: int, round: seq<Check>)
    returns (best: Option<Host>, host: Option<Host>, checked: nat)
    requires RoundOk(hosts, round)
    modifies hosts
    ensures best.None? <==> NoneFits(cfg, mb, round)
    ensures best.Some? ==>
              && host == best && checked < |round| && best.value == hosts[round[checked].host]
              && Fits(cfg, mb, round[checked]) && NoneFits(cfg, mb, round[..checked])
              && best.value.free == round[checked].free && best.value.la == round[checked].la
  {
    best, host := None, None;
    checked := 0;
    while checked < |round|
      invariant checked <= |round| && NoneFits(cfg, mb, round[..checked])
    {
      var h := hosts[round[checked].host];
      host := Some(h);
      h.UpdateStats(round[checked]);
      if h.free >= mb && h.la < MaxLa(cfg) {
        best := Some(h);
        assert Fits(cfg, mb, round[checked]);
        return;
      }
      assert round[..checked + 1] == round[..checked] + [round[checked]];
      checked := checked + 1;
    }
    assert round[..checked] == round;
  }

  predicate AllNoneFit(cfg: Config, mb: int, rounds: seq<seq<Check>>) {
    forall r :: 0 <= r < |rounds| ==> NoneFits(cfg, mb, rounds[r])
  }

  /** The outer loop, over the rounds observed so far; None while it goes on waiting. The host used is
      the first in the first round in which one fits, and its statistics are those of its check in
      that round, which meets the memory demand and the load limit. */
  method ChooseHost(hosts: seq<Host>, cfg: Config, mb: int, rounds: seq<seq<Check>>)
    returns (used: Option<Host>, r: nat, i: nat)
    requires forall r :: 0 <= r < |rounds| ==> RoundOk(hosts, rounds[r])
    modifies hosts
    ensures used.None? <==> AllNoneFit(cfg, mb, rounds)
    ensures used.Some? ==>
              && r < |rounds| && i < |rounds[r]| && rounds[r][i].host < |hosts|
                  && used.value == hosts[rounds[r][i].host]
              && AllNoneFit(cfg, mb, rounds[..r]) && NoneFits(cfg, mb, rounds[r][..i])
              && used.value.free == rounds[r][i].free >= mb && used.value.la == rounds[r][i].la < MaxLa(cfg)
  {
    r, i := 0, 0;
    while r < |rounds|
      invariant r <= |rounds| && AllNoneFit(cfg, mb, rounds[..r])
    {
      var best, host, checked := CheckRound(hosts, cfg, mb, rounds[r]);
      if best.Some? {
        return host, r, checked;
      }
      assert rounds[..r + 1] == rounds[..r] + [rounds[r]];
      r := r + 1;
    }
    assert rounds[..r] == rounds;
    return None, r, i;
  }

  /** The request as a whole: the host used had, at its check in that round, the reserve and the
      memory of all VMs free, and a load below the limit. */
  method PickHost(hosts: seq<Host>, cfg: Config, names: seq<string>, rounds: seq<seq<Check>>)
    returns (used: Option<Host>)
    requires forall r :: 0 <= r < |rounds| ==> RoundOk(hosts, rounds[r])
    modifies hosts
    ensures used.Some? ==>
              && Configured(cfg, names) && used.value in hosts
              && used.value.free >= (if cfg.freemb.Some? then cfg.freemb.value else 1024) + Total(cfg, names)
              && used.value.la < (if cfg.maxla.Some? then cfg.maxla.value else 4.0)
    ensures used.None? && Configured(cfg, names) ==>
              forall r, i :: 0 <= r < |rounds| && 0 <= i < |rounds[r]| ==>
                || rounds[r][i].free < (if cfg.freemb.Some? then cfg.freemb.value else 1024) + Total(cfg, names)
                || rounds[r][i].la >= (if cfg.maxla.Some? then cfg.maxla.value else 4.0)
  {
    var mb := MemoryRequired(cfg, names);
    if mb.None? {
      return None;
    }
    var r, i;
    used, r, i := ChooseHost(hosts, cfg, mb.value, rounds);
    if used.None? {
      forall r, i | 0 <= r < |rounds| && 0 <= i < |rounds[r]| ensures !Fits(cfg, mb.value, rounds[r][i]) {
        assert NoneFits(cfg, mb.value, rounds[r]);
      }
    }
  }

  // ---------------------------------------------------------------- spacing

  type Caller = nat

  datatype Turn = Free | Sleeping(c: Caller, until: real) | Choosing(c: Caller)

  /** `admissions` are the times at which `last` was set. A sleep may end up to `slack` early. */
  datatype State = State(now: real, last: real, turn: Turn, admissions: seq<real>)

  datatype Action =
    | Tick(time: real)
    | Take(c: Caller)                  // get the lock and read the clock
    | Wake
    | Overloaded                       // no host fits: sleep and check again
    | Admit
    | Abandon                          // an exception or a cancellation releases the lock

  predicate Enabled(slack: real, s: State, a: Action) {
    match a
    case Tick(time) => time >= s.now
    case Take(c) => s.turn.Free?
    case Wake => s.turn.Sleeping? && s.now >= s.turn.until - slack
    case Overloaded => s.turn.Choosing?
    case Admit => s.turn.Choosing?
    case Abandon => !s.turn.Free?
  }

  function Next(slack: real, s: State, a: Action): State
    requires Enabled(slack, s, a)
  {
    match a
    case Tick(time) => s.(now := time)
    case Take(c) =>
      var sleep := s.last + 5.0 - s.now;
      s.(turn := if sleep > 1.0 then Sleeping(c, s.now + sleep) else Choosing(c))
    case Wake => s.(turn := Choosing(s.turn.c))
    case Overloaded => s
    case Admit => s.(last := s.now, turn := Free, admissions := s.admissions + [s.now])
    case Abandon => s.(turn := Free)
  }

  /** The provider is created at `start`. */
  function Init(start: real): State {
    State(start, start, Free, [])
  }

  predicate ValidRun(slack: real, s: State, acts: seq<Action>)
    decreases |acts|
  {
    acts == [] || (Enabled(slack, s, acts[0]) && ValidRun(slack, Next(slack, s, acts[0]), acts[1..]))
  }

  function Final(slack: real, s: State, acts: seq<Action>): State
    requires ValidRun(slack, s, acts)
    decreases |acts|
  {
    if acts == [] then s else Final(slack, Next(slack, s, acts[0]), acts[1..])
  }

  /** The time before time i. */
  function Before(start: real, times: seq<real>, i: nat): real
    requires i <= |times|
  {
    if i == 0 then start else times[i - 1]
  }

  /** Consecutive times, the first after `start`, are at least `gap` apart. */
  predicate Spaced(start: real, times: seq<real>, gap: real) {
    forall i :: 0 <= i < |times| ==> times[i] >= Before(start, times, i) + gap
  }

  lemma SpacedAppend(start: real, times: seq<real>, gap: real, time: real)
    requires Spaced(start, times, gap) && time >= Before(start, times, |times|) + gap
    ensures Spaced(start, times + [time], gap)
  {
    var more := times + [time];
    forall i | 0 <= i < |more| ensures more[i] >= Before(start, more, i) + gap {
      assert Before(start, more, i) == Before(start, times, i);
    }
  }

  predicate Inv(start: real, gap: real, s: State) {
    && s.last == Before(start, s.admissions, |s.admissions|)
    && s.last <= s.now
    && Spaced(start, s.admissions, gap)
    && (s.turn.Choosing? ==> s.now >= s.last + gap)
    && (s.turn.Sleeping? ==> s.turn.until == s.last + 5.0)
  }

  function Gap(slack: real): real {
    if slack <= 1.0 then 4.0 else 5.0 - slack
  }

  lemma StepKeeps(start: real, slack: real, s: State, a: Action)
    requires 0.0 <= slack <= 5.0 && Inv(start, Gap(slack), s) && Enabled(slack, s, a)
    ensures Inv(start, Gap(slack), Next(slack, s, a))
  {
    if a.Admit? {
      SpacedAppend(start, s.admissions, Gap(slack), s.now);
    }
  }

  lemma {:induction false} RunKeeps(start: real, slack: real, s: State, acts: seq<Action>)
    requires 0.0 <= slack <= 5.0 && Inv(start, Gap(slack), s) && ValidRun(slack, s, acts)
    ensures Inv(start, Gap(slack), Final(slack, s, acts))
    decreases |acts|
  {
    if acts != [] {
      StepKeeps(start, slack, s, acts[0]);
      RunKeeps(start, slack, Next(slack, s, acts[0]), acts[1..]);
    }
  }

  /** With a monotone clock, and sleeps that end at most a second early, admissions are at least four
      seconds apart, in every interleaving of callers. */
  lemma AdmissionsSpaced(start: real, slack: real, acts: seq<Action>)
    requires 0.0 <= slack <= 1.0 && ValidRun(slack, Init(start), acts)
    ensures Spaced(start, Final(slack, Init(start), acts).admissions, 4.0)
  {
    RunKeeps(start, slack, Init(start), acts);
  }

  /** Exactly the callers that come less than four seconds after the last admission sleep, until five
      seconds after it. */
  lemma EarlyCallersSleep(slack: real, s: State, c: Caller)
    requires s.turn.Free?
    ensures var s1 := Next(slack, s, Take(c));
            if s.now < s.last + 4.0 then s1.turn == Sleeping(c, s.last + 5.0) else s1.turn == Choosing(c)
  {
  }

  /** A caller that comes four seconds after the last admission does not sleep. */
  function Prompt(start: real): seq<Action> {
    [Tick(start + 4.0), Take(1), Admit]
  }

  /** Four seconds is exact: no larger spacing holds of all runs, even if sleeps never end early. */
  lemma SpacingIsExact(start: real, gap: real)
    ensures (forall acts: seq<Action> :: ValidRun(0.0, Init(start), acts) ==>
        Spaced(start, Final(0.0, Init(start), acts).admissions, gap))
            <==> gap <= 4.0
  {
    forall acts: seq<Action> | ValidRun(0.0, Init(start), acts)
      ensures gap <= 4.0 ==> Spaced(start, Final(0.0, Init(start), acts).admissions, gap)
    {
      AdmissionsSpaced(start, 0.0, acts);
    }
    PromptRun(start);
    var times := Final(0.0, Init(start), Prompt(start)).admissions;
    assert times[0] == start + 4.0 && Before(start, times, 0) == start;
  }

  lemma PromptRun(start: real)
    ensures ValidRun(0.0, Init(start), Prompt(start))
        && Final(0.0, Init(start), Prompt(start)).admissions == [start + 4.0]
  {
    var acts := Prompt(start);
    var s1 := Next(0.0, Init(start), acts[0]);
    var s2 := Next(0.0, s1, acts[1]);
    var s3 := Next(0.0, s2, acts[2]);
    assert acts[1..][0] == acts[1] && acts[1..][1..][0] == acts[2];
    assert ValidRun(0.0, s3, acts[1..][1..][1..]);
    assert ValidRun(0.0, s2, acts[1..][1..]);
    assert ValidRun(0.0, s1, acts[1..]);
    assert Final(0.0, s1, acts[1..]) == Final(0.0, s2, acts[1..][1..]);
  }
}
