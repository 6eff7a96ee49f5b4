/**
 Progress of image builds: no deadlock, a bound on the steps of a request, and who writes
 a volume.
 */
module ImageProgress {
  import opened Images
  import opened ImageInvariant

  /** The request waits for a lock that somebody holds. */
  predicate Blocked(s: State, r: ReqId) {
    r in s.reqs && s.reqs[r].want.Some? && s.reqs[r].want.value in s.held
  }

  // ------------------------------------------------- no deadlock

  /** Whoever holds the lock of `n` waits, if at all, for an image of lower rank. */
  lemma HolderWaitsLower(e: Config, s: State, n: Name)
    requires Acyclic(e) && LocksOk(e, s) && n in s.held
    ensures var o := s.held[n].owner;
            o in s.reqs &&
            (s.reqs[o].want.Some? ==>
                s.reqs[o].want.value in e.images && n in e.images && e.rank[s.reqs[o].want.value] < e.rank[n])
  {
    var o := s.held[n].owner;
    assert HeldOk(e, s, n) && ChainOk(e, s, o);
    var c := s.reqs[o].chain;
    var i :| 0 <= i < |c| && c[i] == n;
    RankFalls(e, s, o, i, |c| - 1);
    assert LinkOk(e, s, o, |c| - 1);
  }

  lemma {:induction false} FindRunnable(e: Config, s: State, r: ReqId) returns (q: ReqId)
    requires Acyclic(e) && LocksOk(e, s) && Blocked(s, r)
    ensures q in s.reqs && !Blocked(s, q)
    decreases
      if r in s.reqs && s.reqs[r].want.Some? && s.reqs[r].want.value in e.rank
      then e.rank[s.reqs[r].want.value] else 0
  {
    assert ChainOk(e, s, r);
    var n := s.reqs[r].want.value;
    HolderWaitsLower(e, s, n);
    q := s.held[n].owner;
    if Blocked(s, q) {
      q := FindRunnable(e, s, q);
    }
  }

  /** In every reachable state with requests in progress, some request is not blocked: the lock
      it wants is free, or it has a command in flight, or it is about to clone its disk. */
  lemma NoDeadlock(b: Backend, e: Config, s: State, r: ReqId) returns (q: ReqId)
    requires Acyclic(e) && LocksOk(e, s) && r in s.reqs
    ensures q in s.reqs && !Blocked(s, q)
    ensures s.reqs[q].want.Some? ==> Enabled(b, e, s, Ok(q))
    ensures s.reqs[q].want.None? ==> Running(e, s, q) || s.reqs[q].chain == []
  {
    q := r;
    if Blocked(s, r) {
      q := FindRunnable(e, s, r);
    }
    assert ChainOk(e, s, q);
    if s.reqs[q].chain != [] {
      assert LinkOk(e, s, q, |s.reqs[q].chain| - 1);
    }
  }

  // ------------------------------------------------- bounded work

  /** Steps a build may still take after the given phase is entered. */
  function Left(conf: ImageConf, phase: Phase): nat {
    match phase
    case Checking => |conf.scripts| + 9
    case InParent => |conf.scripts| + 8
    case Cloning => |conf.scripts| + 7
    case Creating => 4
    case Fetching => 3
    case Resizing => 2
    case SealingDownload => 1
    case Booting => |conf.scripts| + 5
    case Scripting(i) => if i <= |conf.scripts| then |conf.scripts| - i + 4 else 4
    case Destroying(at) => 1
    case Sealing => 1
  }

  /** Steps of build_image(n), from waiting for its lock, down the whole parent chain. */
  function Cost(e: Config, n: Name): nat
    requires Acyclic(e) && n in e.images
    decreases e.rank[n]
  {
    var conf := e.images[n];
    |conf.scripts| + 10 + if conf.parent.Some? then Cost(e, conf.parent.value) else 0
  }

  function LeftOf(e: Config, s: State, n: Name): nat {
    if n in s.held && n in e.images then Left(e.images[n], s.held[n].phase) else 0
  }

  /** What the builds of a chain may still take; a build in front of its check or inside its
      parent is charged for the parent where the parent's lock is wanted. */
  function ChainLeft(e: Config, s: State, chain: seq<Name>): nat {
    if chain == [] then 0 else ChainLeft(e, s, chain[..|chain| - 1]) + LeftOf(e, s, chain[|chain| - 1])
  }

  /** The parents a build has not asked for yet. */
  function Ahead(e: Config, s: State, r: ReqId): nat
    requires Acyclic(e) && r in s.reqs
  {
    var q := s.reqs[r];
    if q.want.Some? then (if q.want.value in e.images then Cost(e, q.want.value) else 0)
    else if q.chain == [] then 0
    else
      var n := Innermost(s, r);
      if n in s.held && n in e.images && s.held[n].phase.Checking? && e.images[n].parent.Some?
      then Cost(e, e.images[n].parent.value) else 0
  }

  /** A bound on the steps a request may still take; the last one clones the disk. */
  function Work(e: Config, s: State, r: ReqId): nat
    requires Acyclic(e)
  {
    if r in s.reqs then 1 + Ahead(e, s, r) + ChainLeft(e, s, s.reqs[r].chain) else 0
  }

  lemma {:induction false} ChainFrame(e: Config, s: State, s1: State, chain: seq<Name>)
    requires forall i :: 0 <= i < |chain| ==> LeftOf(e, s1, chain[i]) == LeftOf(e, s, chain[i])
    ensures ChainLeft(e, s1, chain) == ChainLeft(e, s, chain)
  {
    if chain != [] {
      ChainFrame(e, s, s1, chain[..|chain| - 1]);
    }
  }

  predicate ActsFor(a: Action, r: ReqId) {
    (a.Ok? || a.Fail? || a.CloneDisk?) && a.r == r
  }

  // ------------------------------------------------- steps of the request itself

  /** Only the innermost build moves: the rest of the chain is worth the same. */
  lemma OuterSame(e: Config, s: State, s1: State, r: ReqId)
    requires Acyclic(e) && LocksOk(e, s) && Running(e, s, r)
    requires forall m :: m in s.held && m != Innermost(s, r) ==> m in s1.held && s1.held[m].phase == s.held[m].phase
    ensures var c := s.reqs[r].chain;
            ChainLeft(e, s1, c[..|c| - 1]) == ChainLeft(e, s, c[..|c| - 1])
  {
    var c := s.reqs[r].chain;
    assert ChainOk(e, s, r);
    forall i | 0 <= i < |c| - 1 ensures LeftOf(e, s1, c[i]) == LeftOf(e, s, c[i]) {
      assert LinkOk(e, s, r, i);
      InnermostIsNew(e, s, r, i);
    }
    ChainFrame(e, s, s1, c[..|c| - 1]);
  }

  lemma AcquireWork(e: Config, s: State, r: ReqId)
    requires Acyclic(e) && LocksOk(e, s) && r in s.reqs && s.reqs[r].want.Some? && s.reqs[r].want.value !in s.held
    ensures Work(e, Acquire(s, r), r) < Work(e, s, r)
  {
    var s1 := Acquire(s, r);
    var c := s.reqs[r].chain;
    assert ChainOk(e, s, r);
    forall i | 0 <= i < |c| ensures LeftOf(e, s1, c[i]) == LeftOf(e, s, c[i]) {
      assert LinkOk(e, s, r, i);
    }
    ChainFrame(e, s, s1, c);
    assert s1.reqs[r].chain[..|c|] == c;
  }

  lemma ReturnKeepsOuter(e: Config, s: State, r: ReqId, i: nat)
    requires Acyclic(e) && LocksOk(e, s) && Running(e, s, r) && i + 2 < |s.reqs[r].chain|
    ensures LeftOf(e, Return(s, r), s.reqs[r].chain[i]) == LeftOf(e, s, s.reqs[r].chain[i])
  {
    var k := |s.reqs[r].chain| - 1;
    assert LinkOk(e, s, r, i) && LinkOk(e, s, r, k - 1);
    InnermostIsNew(e, s, r, i);
    RankFalls(e, s, r, i, k - 1);
  }

  lemma ReturnMovesCaller(e: Config, s: State, r: ReqId)
    requires Acyclic(e) && LocksOk(e, s) && Running(e, s, r) && |s.reqs[r].chain| > 1
    ensures var n := s.reqs[r].chain[|s.reqs[r].chain| - 2];
            LeftOf(e, Return(s, r), n) < LeftOf(e, s, n)
  {
    var k := |s.reqs[r].chain| - 1;
    assert LinkOk(e, s, r, k - 1);
    InnermostIsNew(e, s, r, k - 1);
  }

  lemma ReturnOuter(e: Config, s: State, r: ReqId)
    requires Acyclic(e) && LocksOk(e, s) && Running(e, s, r) && |s.reqs[r].chain| > 1
    ensures var c := s.reqs[r].chain;
            var k := |c| - 1;
            && ChainLeft(e, Return(s, r), c[..k - 1]) == ChainLeft(e, s, c[..k - 1])
            && LeftOf(e, Return(s, r), c[k - 1]) < LeftOf(e, s, c[k - 1])
  {
    var c := s.reqs[r].chain;
    var k := |c| - 1;
    forall i | 0 <= i < k - 1 ensures LeftOf(e, Return(s, r), c[i]) == LeftOf(e, s, c[i]) {
      ReturnKeepsOuter(e, s, r, i);
    }
    ChainFrame(e, s, Return(s, r), c[..k - 1]);
    ReturnMovesCaller(e, s, r);
  }

  lemma ChainLast(e: Config, s: State, chain: seq<Name>)
    requires chain != []
    ensures ChainLeft(e, s, chain) == ChainLeft(e, s, chain[..|chain| - 1]) + LeftOf(e, s, chain[|chain| - 1])
  {
  }

  /** The rest of the chain after Return is worth less than the whole chain before. */
  lemma ReturnChain(e: Config, s: State, r: ReqId)
    requires Acyclic(e) && LocksOk(e, s) && Running(e, s, r)
    ensures var c := s.reqs[r].chain;
            ChainLeft(e, Return(s, r), c[..|c| - 1]) < ChainLeft(e, s, c)
  {
    var c := s.reqs[r].chain;
    var k := |c| - 1;
    assert LeftOf(e, s, c[k]) > 0;
    if k > 0 {
      ReturnOuter(e, s, r);
      ChainLast(e, s, c[..k]);
      ChainLast(e, Return(s, r), c[..k]);
      assert c[..k][..k - 1] == c[..k - 1];
    }
  }

  /** Its caller, if any, goes on to clone ... */
  lemma ReturnClones(e: Config, s: State, r: ReqId)
    requires Acyclic(e) && LocksOk(e, s) && Running(e, s, r)
    ensures var c := s.reqs[r].chain;
            var s1 := Return(s, r);
            && r in s1.reqs && s1.reqs[r] == s.reqs[r].(chain := c[..|c| - 1])
            && (|c| > 1 ==> c[|c| - 2] in s1.held && s1.held[c[|c| - 2]].phase.Cloning?)
  {
    var k := |s.reqs[r].chain| - 1;
    if k > 0 {
      InnermostIsNew(e, s, r, k - 1);
      assert LinkOk(e, s, r, k - 1);
    }
  }

  /** ... and has no parent to ask for any more. */
  lemma NothingAhead(e: Config, s: State, r: ReqId)
    requires Acyclic(e) && r in s.reqs && s.reqs[r].want.None?
    requires s.reqs[r].chain != [] ==> Innermost(s, r) in s.held && !s.held[Innermost(s, r)].phase.Checking?
    ensures Ahead(e, s, r) == 0
  {
  }

  /** Return drops the innermost build and moves its caller on. */
  lemma ReturnWork(e: Config, s: State, r: ReqId)
    requires Acyclic(e) && LocksOk(e, s) && Running(e, s, r)
    ensures Work(e, Return(s, r), r) < Work(e, s, r)
  {
    ReturnChain(e, s, r);
    ReturnClones(e, s, r);
    NothingAhead(e, Return(s, r), r);
  }

  lemma MoveWork(e: Config, s: State, s1: State, r: ReqId)
    requires Acyclic(e) && LocksOk(e, s) && Running(e, s, r)
    requires forall m :: m in s.held && m != Innermost(s, r) ==> m in s1.held && s1.held[m].phase == s.held[m].phase
    requires r in s1.reqs && s1.reqs[r].chain == s.reqs[r].chain
    requires LeftOf(e, s1, Innermost(s, r)) < LeftOf(e, s, Innermost(s, r)) && Ahead(e, s1, r) <= Ahead(e, s, r)
    ensures Work(e, s1, r) < Work(e, s, r)
  {
    OuterSame(e, s, s1, r);
  }

  lemma FollowingLess(conf: ImageConf, phase: Phase)
    requires Goes(phase) && (phase.Scripting? ==> phase.i <= |conf.scripts|)
    ensures Left(conf, Following(conf, phase)) < Left(conf, phase)
  {
  }

  lemma GoWork(b: Backend, e: Config, s: State, r: ReqId)
    requires Acyclic(e) && LocksOk(e, s) && Running(e, s, r) && Goes(s.held[Innermost(s, r)].phase)
    requires CanOk(b, e, s, Innermost(s, r), s.held[Innermost(s, r)].phase)
    ensures Work(e, StepOk(b, e, s, r), r) < Work(e, s, r)
  {
    var n := Innermost(s, r);
    var s1 := StepOk(b, e, s, r);
    GoesOn(b, e, s, r);
    FollowingLess(e.images[n], s.held[n].phase);
    assert Ahead(e, s1, r) == 0;
    MoveWork(e, s, s1, r);
  }

  /** What the check of a missing image does: its build goes on, to the parent if there is one. */
  predicate Checked(e: Config, s: State, s1: State, r: ReqId)
    requires Running(e, s, r)
  {
    var n := Innermost(s, r);
    && (forall m :: m in s.held && m != n ==> m in s1.held && s1.held[m].phase == s.held[m].phase)
    && r in s1.reqs && s1.reqs[r] == s.reqs[r].(want := e.images[n].parent)
    && n in s1.held && Left(e.images[n], s1.held[n].phase) < Left(e.images[n], Checking) && !s1.held[n].phase.Checking?
  }

  lemma CheckIsChecked(b: Backend, e: Config, s: State, r: ReqId)
    requires Running(e, s, r) && s.held[Innermost(s, r)].phase.Checking? && Innermost(s, r) !in s.store
    ensures Checked(e, s, StepOk(b, e, s, r), r)
  {
  }

  lemma CheckWork(e: Config, s: State, s1: State, r: ReqId)
    requires Acyclic(e) && LocksOk(e, s) && Running(e, s, r) && s.held[Innermost(s, r)].phase.Checking?
    requires Checked(e, s, s1, r)
    ensures Work(e, s1, r) < Work(e, s, r)
  {
    assert Ahead(e, s1, r) <= Ahead(e, s, r);
    MoveWork(e, s, s1, r);
  }

  lemma StepOkWork(b: Backend, e: Config, s: State, r: ReqId)
    requires Acyclic(e) && LocksOk(e, s) && Running(e, s, r)
    requires CanOk(b, e, s, Innermost(s, r), s.held[Innermost(s, r)].phase)
    ensures Work(e, StepOk(b, e, s, r), r) < Work(e, s, r)
  {
    var n := Innermost(s, r);
    var phase := s.held[n].phase;
    if Goes(phase) {
      GoWork(b, e, s, r);
    } else if phase.Checking? && n !in s.store {
      CheckIsChecked(b, e, s, r);
      CheckWork(e, s, StepOk(b, e, s, r), r);
    } else if !phase.Destroying? {
      var s0 := s.(store := StepOk(b, e, s, r).store);
      LocksFrame(e, s, s0);
      ReturnWork(e, s0, r);
      StoreNoWork(e, s, s0, r);
    }
  }

  lemma StoreNoWork(e: Config, s: State, s0: State, r: ReqId)
    requires Acyclic(e) && s0.held == s.held && s0.reqs == s.reqs
    ensures Work(e, s0, r) == Work(e, s, r)
  {
    if r in s.reqs {
      ChainFrame(e, s, s0, s.reqs[r].chain);
    }
  }

  lemma FailHandles(e: Config, s: State, r: ReqId)
    requires Running(e, s, r) && s.held[Innermost(s, r)].phase.Scripting?
    ensures var s1 := StepFail(e, s, r);
            && s1.reqs == s.reqs
            && (forall m :: m in s.held && m != Innermost(s, r) ==> m in s1.held && s1.held[m] == s.held[m])
            && Innermost(s, r) in s1.held && s1.held[Innermost(s, r)].phase.Destroying?
  {
  }

  lemma FailWork(e: Config, s: State, r: ReqId)
    requires Acyclic(e) && LocksOk(e, s) && r in s.reqs
    ensures Work(e, StepFail(e, s, r), r) < Work(e, s, r)
  {
    if Running(e, s, r) && s.held[Innermost(s, r)].phase.Scripting? {
      FailHandles(e, s, r);
      NothingAhead(e, StepFail(e, s, r), r);
      MoveWork(e, s, StepFail(e, s, r), r);
    }
  }

  lemma OwnStepWorks(b: Backend, e: Config, s: State, a: Action, r: ReqId)
    requires Acyclic(e) && LocksOk(e, s) && Enabled(b, e, s, a) && ActsFor(a, r)
    ensures Work(e, Next(b, e, s, a), r) < Work(e, s, r)
  {
    match a
    case Ok(_) =>
      if s.reqs[r].want.Some? {
        AcquireWork(e, s, r);
      } else {
        StepOkWork(b, e, s, r);
      }
    case Fail(_) => FailWork(e, s, r);
    case CloneDisk(_, _) =>
  }

  // ------------------------------------------------- steps of others

  lemma ReturnTouches(e: Config, s: State, r: ReqId, n: Name)
    requires LocksOk(e, s) && Running(e, s, r) && n in s.held && s.held[n].owner != r
    ensures n in Return(s, r).held && Return(s, r).held[n] == s.held[n]
  {
    var c := s.reqs[r].chain;
    assert ChainOk(e, s, r) && LinkOk(e, s, r, |c| - 1);
    if |c| > 1 {
      assert LinkOk(e, s, r, |c| - 2);
    }
  }

  /** A successful command touches only locks of its own request. */
  lemma StepOkTouches(b: Backend, e: Config, s: State, r: ReqId, n: Name)
    requires LocksOk(e, s) && Running(e, s, r) && n in s.held && s.held[n].owner != r
    requires CanOk(b, e, s, Innermost(s, r), s.held[Innermost(s, r)].phase)
    ensures n in StepOk(b, e, s, r).held && StepOk(b, e, s, r).held[n] == s.held[n]
  {
    var m := Innermost(s, r);
    assert ChainOk(e, s, r) && LinkOk(e, s, r, |s.reqs[r].chain| - 1);
    if Goes(s.held[m].phase) {
      GoesOn(b, e, s, r);
    } else if s.held[m].phase.Sealing? || s.held[m].phase.SealingDownload? {
      var s0 := s.(store := Sealed(b, s, m));
      LocksFrame(e, s, s0);
      ReturnTouches(e, s0, r, n);
    } else if s.held[m].phase.Checking? && m in s.store {
      ReturnTouches(e, s, r, n);
    }
  }

  lemma StepFailTouches(e: Config, s: State, r: ReqId, n: Name)
    requires LocksOk(e, s) && r in s.reqs && n in s.held && s.held[n].owner != r
    ensures n in StepFail(e, s, r).held && StepFail(e, s, r).held[n] == s.held[n]
  {
    if Running(e, s, r) {
      assert ChainOk(e, s, r) && LinkOk(e, s, r, |s.reqs[r].chain| - 1);
    }
  }

  /** Other requests leave the locks of `r` alone. */
  lemma OthersLeaveLocks(b: Backend, e: Config, s: State, a: Action, r: ReqId, n: Name)
    requires LocksOk(e, s) && Enabled(b, e, s, a) && !ActsFor(a, r)
    requires n in s.held && s.held[n].owner == r
    ensures n in Next(b, e, s, a).held && Next(b, e, s, a).held[n] == s.held[n]
  {
    if a.Ok? && s.reqs[a.r].want.None? {
      StepOkTouches(b, e, s, a.r, n);
    } else if a.Fail? {
      StepFailTouches(e, s, a.r, n);
    }
  }

  lemma StepOkReqs(b: Backend, e: Config, s: State, q: ReqId, r: ReqId)
    requires Running(e, s, q) && q != r && r in s.reqs
    requires CanOk(b, e, s, Innermost(s, q), s.held[Innermost(s, q)].phase)
    ensures r in StepOk(b, e, s, q).reqs && StepOk(b, e, s, q).reqs[r] == s.reqs[r]
  {
    if Goes(s.held[Innermost(s, q)].phase) {
      GoesOn(b, e, s, q);
    }
  }

  lemma OthersKeepRequest(b: Backend, e: Config, s: State, a: Action, r: ReqId)
    requires Enabled(b, e, s, a) && !ActsFor(a, r) && r in s.reqs
    ensures r in Next(b, e, s, a).reqs && Next(b, e, s, a).reqs[r] == s.reqs[r]
  {
    if a.Ok? && s.reqs[a.r].want.None? {
      StepOkReqs(b, e, s, a.r, r);
    }
  }

  lemma OthersNoWork(b: Backend, e: Config, s: State, a: Action, r: ReqId)
    requires Acyclic(e) && LocksOk(e, s) && Enabled(b, e, s, a) && !ActsFor(a, r) && r in s.reqs
    ensures Work(e, Next(b, e, s, a), r) == Work(e, s, r)
  {
    var s1 := Next(b, e, s, a);
    var c := s.reqs[r].chain;
    OthersKeepRequest(b, e, s, a, r);
    assert ChainOk(e, s, r);
    forall i | 0 <= i < |c| ensures c[i] in s.held && c[i] in s1.held && s1.held[c[i]] == s.held[c[i]] {
      assert LinkOk(e, s, r, i);
      OthersLeaveLocks(b, e, s, a, r, c[i]);
    }
    ChainFrame(e, s, s1, c);
  }

  /** How many steps of a run are steps of request `r`. */
  function StepsOf(acts: seq<Action>, r: ReqId): nat {
    if acts == [] then 0 else (if ActsFor(acts[0], r) then 1 else 0) + StepsOf(acts[1..], r)
  }

  lemma StepBound(b: Backend, e: Config, s: State, a: Action, r: ReqId)
    requires Acyclic(e) && LocksOk(e, s) && Enabled(b, e, s, a) && !(a.Request? && a.r == r)
    ensures (if ActsFor(a, r) then 1 else 0) + Work(e, Next(b, e, s, a), r) <= Work(e, s, r)
  {
    if ActsFor(a, r) {
      OwnStepWorks(b, e, s, a, r);
    } else if r in s.reqs {
      OthersNoWork(b, e, s, a, r);
    }
  }

  /** However requests interleave, fail and delete images, a request takes at most `Work`
      steps: recursive build_image terminates. */
  lemma {:induction false} BuildTerminates(b: Backend, e: Config, s: State, acts: seq<Action>, r: ReqId)
    requires Acyclic(e) && LocksOk(e, s) && ValidRun(b, e, s, acts)
    requires forall i :: 0 <= i < |acts| ==> !(acts[i].Request? && acts[i].r == r)
    ensures StepsOf(acts, r) + Work(e, Final(b, e, s, acts), r) <= Work(e, s, r)
    decreases |acts|
  {
    if acts != [] {
      NextLocks(b, e, s, acts[0]);
      StepBound(b, e, s, acts[0], r);
      BuildTerminates(b, e, Next(b, e, s, acts[0]), acts[1..], r);
    }
  }

  // ------------------------------------------------- who writes

  lemma StepOkWrites(b: Backend, e: Config, s: State, r: ReqId, m: Name)
    requires Running(e, s, r) && m != Innermost(s, r)
    requires CanOk(b, e, s, Innermost(s, r), s.held[Innermost(s, r)].phase)
    ensures var s1 := StepOk(b, e, s, r);
            (m in s1.store <==> m in s.store) && (m in s.store ==> s1.store[m] == s.store[m])
  {
  }

  /** A volume changes only by hand or by the request whose innermost lock is its own. */
  lemma OnlyHolderWrites(b: Backend, e: Config, s: State, a: Action, m: Name)
    requires LocksOk(e, s) && Enabled(b, e, s, a) && a != Delete(m)
    requires m in s.held ==> !ActsFor(a, s.held[m].owner)
    ensures var s1 := Next(b, e, s, a);
            (m in s1.store <==> m in s.store) && (m in s.store ==> s1.store[m] == s.store[m])
  {
    if (a.Ok? || a.Fail?) && Running(e, s, a.r) {
      assert ChainOk(e, s, a.r) && LinkOk(e, s, a.r, |s.reqs[a.r].chain| - 1);
      if a.Ok? {
        StepOkWrites(b, e, s, a.r, m);
      }
    }
  }
}
