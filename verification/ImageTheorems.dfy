/**
 Coherence of the image cache over whole runs: exactly which steps keep it, on zfs with
 hand deletions, and on either backend without.
 */
module ImageTheorems {
  import opened Options
  import opened Images
  import opened ImageInvariant
  import opened ImageCoherence

  /** What the README promises of the cache: an image that exists and that nobody is
      building is the download, or its parent followed by its build scripts, and on zfs so is
      the snapshot from which it is cloned; every VM disk is a copy of that. */
  predicate Coherent(b: Backend, e: Config, s: State)
    requires Acyclic(e)
  {
    && (forall n :: n in s.store && n !in s.held ==> n in e.images && Finished(b, e, n, s.store[n]))
    && (forall v :: v in s.disks ==> DiskOk(e, s.disks[v]))
  }

  predicate AllHarmless(b: Backend, e: Config, s: State, acts: seq<Action>)
    requires ValidRun(b, e, s, acts)
    decreases |acts|
  {
    acts == [] || (Harmless(b, e, s, acts[0]) && AllHarmless(b, e, Next(b, e, s, acts[0]), acts[1..]))
  }

  /** No command fails after its volume exists and outside the try. */
  predicate NoResidue(b: Backend, e: Config, s: State, acts: seq<Action>)
    requires ValidRun(b, e, s, acts)
    decreases |acts|
  {
    acts == [] ||
    (&& (acts[0].Fail? ==> !LeavesResidue(b, e, s, acts[0].r))
     && NoResidue(b, e, Next(b, e, s, acts[0]), acts[1..]))
  }

  predicate NoDelete(acts: seq<Action>) {
    forall i :: 0 <= i < |acts| ==> !acts[i].Delete?
  }

  // ------------------------------------------------- coherence

  lemma InvIsCoherent(b: Backend, e: Config, s: State)
    requires Acyclic(e) && Inv(b, e, s)
    ensures Coherent(b, e, s)
  {
    forall n | n in s.store && n !in s.held ensures n in e.images && Finished(b, e, n, s.store[n]) {
      assert VolumeOk(b, e, s, n);
    }
  }

  lemma {:induction false} HarmlessRun(b: Backend, e: Config, s: State, acts: seq<Action>)
    requires Acyclic(e) && Inv(b, e, s) && ValidRun(b, e, s, acts) && AllHarmless(b, e, s, acts)
    ensures Inv(b, e, Final(b, e, s, acts)) && Coherent(b, e, Final(b, e, s, acts))
    decreases |acts|
  {
    InvIsCoherent(b, e, s);
    if acts != [] {
      InvExactly(b, e, s, acts[0]);
      HarmlessRun(b, e, Next(b, e, s, acts[0]), acts[1..]);
    }
  }

  // ------------------------------------------------- harm surfaces

  /** The build scripts that have yet to run. */
  function Rest(conf: ImageConf, phase: Phase): seq<string> {
    match phase
    case Booting => conf.scripts
    case Scripting(i) => if i <= |conf.scripts| then conf.scripts[i..] else []
    case _ => []
  }

  /** Request `r` builds `n` on top of content that will not come out right. */
  predicate Wrong(e: Config, s: State, r: ReqId, n: Name)
    requires Acyclic(e)
  {
    && Running(e, s, r) && Innermost(s, r) == n && n in s.store
    && var phase := s.held[n].phase;
    && (phase.Booting? || phase.Scripting? || phase.Sealing?) && ShapeOk(e, n, phase)
    && Spec(e, n) != Some(s.store[n].live + Ops(Rest(e.images[n], phase)))
  }

  function ToGo(conf: ImageConf, phase: Phase): nat {
    match phase
    case Booting => |conf.scripts| + 2
    case Scripting(i) => if i <= |conf.scripts| then |conf.scripts| - i + 1 else 1
    case _ => 0
  }

  lemma OpsFirst(scripts: seq<string>, i: nat, c: Content)
    requires i < |scripts|
    ensures c + Ops(scripts[i..]) == c + [Script(scripts[i])] + Ops(scripts[i + 1..])
  {
  }

  lemma WrongGoesOn(e: Config, s: State, r: ReqId, n: Name)
    requires Acyclic(e) && Wrong(e, s, r, n) && !s.held[n].phase.Sealing?
    ensures Enabled(BTRFS, e, s, Ok(r)) && Harmless(BTRFS, e, s, Ok(r))
    ensures var s1 := Next(BTRFS, e, s, Ok(r));
            Wrong(e, s1, r, n) && ToGo(e.images[n], s1.held[n].phase) < ToGo(e.images[n], s.held[n].phase)
  {
    var scripts, phase := e.images[n].scripts, s.held[n].phase;
    if phase.Booting? {
      assert scripts[0..] == scripts;
    } else if phase.i < |scripts| {
      OpsFirst(scripts, phase.i, s.store[n].live);
    } else {
      assert scripts[phase.i..] == [];
    }
  }

  lemma WrongSurfaces(e: Config, s: State, r: ReqId, n: Name)
    requires Acyclic(e) && Wrong(e, s, r, n) && s.held[n].phase.Sealing?
    ensures Enabled(BTRFS, e, s, Ok(r)) && Harmless(BTRFS, e, s, Ok(r))
    ensures !Coherent(BTRFS, e, Next(BTRFS, e, s, Ok(r)))
  {
    assert s.store[n].live + Ops([]) == s.store[n].live;
    var s1 := Next(BTRFS, e, s, Ok(r));
    assert n in s1.store && n !in s1.held && !Finished(BTRFS, e, n, s1.store[n]);
  }

  /** A continuation without failures and deletions. */
  predicate Calm(acts: seq<Action>) {
    forall i :: 0 <= i < |acts| ==> !acts[i].Fail? && !acts[i].Delete?
  }

  lemma HarmlessFirst(b: Backend, e: Config, s: State, a: Action, acts: seq<Action>)
    requires Enabled(b, e, s, a) && Harmless(b, e, s, a)
    requires ValidRun(b, e, Next(b, e, s, a), acts) && AllHarmless(b, e, Next(b, e, s, a), acts)
    ensures ValidRun(b, e, s, [a] + acts) && AllHarmless(b, e, s, [a] + acts)
    ensures Final(b, e, s, [a] + acts) == Final(b, e, Next(b, e, s, a), acts)
  {
    assert ([a] + acts)[1..] == acts;
  }

  /** The build of the wrong image comes to its end. */
  lemma {:induction false} FinishWrong(e: Config, s: State, r: ReqId, n: Name) returns (acts: seq<Action>)
    requires Acyclic(e) && Wrong(e, s, r, n)
    ensures ValidRun(BTRFS, e, s, acts) && AllHarmless(BTRFS, e, s, acts) && Calm(acts)
    ensures !Coherent(BTRFS, e, Final(BTRFS, e, s, acts))
    decreases if n in e.images && n in s.held then ToGo(e.images[n], s.held[n].phase) else 0
  {
    var rest: seq<Action> := [];
    if s.held[n].phase.Sealing? {
      WrongSurfaces(e, s, r, n);
    } else {
      WrongGoesOn(e, s, r, n);
      rest := FinishWrong(e, Next(BTRFS, e, s, Ok(r)), r, n);
    }
    HarmlessFirst(BTRFS, e, s, Ok(r), rest);
    acts := [Ok(r)] + rest;
  }

  lemma SameEnd(a: Content, b: Content, x: Content)
    requires a + x == b + x
    ensures a == b
  {
    assert |a| == |b|;
    assert a == (a + x)[..|a|] && b == (b + x)[..|b|];
  }

  /** After the clone of an unsettled source, the image will not come out right. */
  lemma UnsettledIsWrong(e: Config, s: State, r: ReqId)
    requires Acyclic(e) && Inv(BTRFS, e, s) && Enabled(BTRFS, e, s, Ok(r)) && !Harmless(BTRFS, e, s, Ok(r))
    ensures Wrong(e, Next(BTRFS, e, s, Ok(r)), r, Innermost(s, r))
  {
    var n := Innermost(s, r);
    var p := e.images[n].parent.value;
    assert HeldOk(e, s, n);
    CloneIsSpec(BTRFS, e, s, p);
    CloningStep(BTRFS, e, s, r);
    var scripts := e.images[n].scripts;
    var c := CloneSource(BTRFS, s, p).value;
    assert Rest(e.images[n], AfterBase(e.images[n])) == scripts;
    if Spec(e, p).Some? && Spec(e, p).value + Ops(scripts) == c + Ops(scripts) {
      SameEnd(Spec(e, p).value, c, Ops(scripts));
    }
  }

  /** After a step that is not harmless, harmless steps alone, without failures and deletions,
      lead to an incoherent cache. */
  lemma HarmSurfaces(b: Backend, e: Config, s: State, a: Action) returns (acts: seq<Action>)
    requires Acyclic(e) && Inv(b, e, s) && Enabled(b, e, s, a) && !Harmless(b, e, s, a)
    ensures var s1 := Next(b, e, s, a);
            && ValidRun(b, e, s1, acts) && AllHarmless(b, e, s1, acts) && Calm(acts)
            && !Coherent(b, e, Final(b, e, s1, acts))
  {
    acts := [];
    match a
    case Ok(r) =>
      UnsettledIsWrong(e, s, r);
      acts := FinishWrong(e, Next(b, e, s, a), r, Innermost(s, r));
    case Fail(r) => ResidueIsIncoherent(b, e, s, r);
    case CloneDisk(r, v) =>
      CloneIsSpec(b, e, s, s.reqs[r].image);
      assert !DiskOk(e, Next(b, e, s, a).disks[v]);
  }

  // ------------------------------------------------- exactly the harmless steps

  /** Coherent now and after any further harmless steps. */
  ghost predicate StaysCoherent(b: Backend, e: Config, s: State)
    requires Acyclic(e)
  {
    forall acts :: ValidRun(b, e, s, acts) && AllHarmless(b, e, s, acts) ==> Coherent(b, e, Final(b, e, s, acts))
  }

  /** From a good state, a step is harmless if and only if the cache stays coherent after it. */
  lemma HarmlessExactly(b: Backend, e: Config, s: State, a: Action)
    requires Acyclic(e) && Inv(b, e, s) && Enabled(b, e, s, a)
    ensures Harmless(b, e, s, a) <==> StaysCoherent(b, e, Next(b, e, s, a))
  {
    var s1 := Next(b, e, s, a);
    if Harmless(b, e, s, a) {
      InvExactly(b, e, s, a);
      forall acts | ValidRun(b, e, s1, acts) && AllHarmless(b, e, s1, acts)
        ensures Coherent(b, e, Final(b, e, s1, acts))
      {
        HarmlessRun(b, e, s1, acts);
      }
    } else {
      var acts := HarmSurfaces(b, e, s, a);
    }
  }

  ghost predicate AlwaysCoherent(b: Backend, e: Config, s: State, acts: seq<Action>)
    requires Acyclic(e) && ValidRun(b, e, s, acts)
    decreases |acts|
  {
    StaysCoherent(b, e, s) && (acts == [] || AlwaysCoherent(b, e, Next(b, e, s, acts[0]), acts[1..]))
  }

  /** Over a run: the cache stays coherent from each of its states on if and only if each of its
      steps is harmless. */
  lemma {:induction false} CoherenceExactly(b: Backend, e: Config, s: State, acts: seq<Action>)
    requires Acyclic(e) && Inv(b, e, s) && ValidRun(b, e, s, acts)
    ensures AlwaysCoherent(b, e, s, acts) <==> AllHarmless(b, e, s, acts)
    decreases |acts|
  {
    forall cont | ValidRun(b, e, s, cont) && AllHarmless(b, e, s, cont) ensures Coherent(b, e, Final(b, e, s, cont)) {
      HarmlessRun(b, e, s, cont);
    }
    if acts != [] {
      HarmlessExactly(b, e, s, acts[0]);
      if Harmless(b, e, s, acts[0]) {
        InvExactly(b, e, s, acts[0]);
        CoherenceExactly(b, e, Next(b, e, s, acts[0]), acts[1..]);
      }
    }
  }

  lemma {:induction false} ZfsIsHarmless(e: Config, s: State, acts: seq<Action>)
    requires ValidRun(ZFS, e, s, acts) && NoResidue(ZFS, e, s, acts)
    ensures AllHarmless(ZFS, e, s, acts)
    decreases |acts|
  {
    if acts != [] {
      ZfsIsHarmless(e, Next(ZFS, e, s, acts[0]), acts[1..]);
    }
  }

  /** On zfs, whatever images are deleted by hand and whenever, the cache is coherent in
      every run whose failures are inside the try. */
  lemma ZfsCoherence(e: Config, s: State, acts: seq<Action>)
    requires Acyclic(e) && Inv(ZFS, e, s) && ValidRun(ZFS, e, s, acts) && NoResidue(ZFS, e, s, acts)
    ensures Coherent(ZFS, e, Final(ZFS, e, s, acts))
  {
    ZfsIsHarmless(e, s, acts);
    HarmlessRun(ZFS, e, s, acts);
  }

  // ------------------------------------------------- btrfs without deletions

  /** `p` is finished and no build touches it. */
  predicate Ready(s: State, p: Name) {
    p in s.store && (p in s.held ==> s.held[p].phase.Checking?)
  }

  predicate ReadyOrNothing(e: Config, s: State, p: Name)
    requires Acyclic(e)
  {
    Ready(s, p) || (p in e.images && Spec(e, p).None?)
  }

  predicate HasVolume(phase: Phase) {
    phase.Fetching? || phase.Resizing? || phase.SealingDownload? || phase.Booting?
    || phase.Scripting? || phase.Destroying? || phase.Sealing?
  }

  /** Without deletions, what a build has made stays, and what is about to be cloned is ready. */
  predicate Steady(e: Config, s: State)
    requires Acyclic(e)
  {
    && (forall n :: n in s.held && n in e.images && HasVolume(s.held[n].phase) ==> n in s.store || Spec(e, n).None?)
    && (forall n :: n in s.held && n in e.images && s.held[n].phase.Cloning? && e.images[n].parent.Some? ==>
          ReadyOrNothing(e, s, e.images[n].parent.value))
    && (forall r :: r in s.reqs && s.reqs[r].chain == [] && s.reqs[r].want.None? ==>
        ReadyOrNothing(e, s, s.reqs[r].image))
  }

  lemma VolumeHasSpec(b: Backend, e: Config, s: State, p: Name)
    requires Acyclic(e) && Inv(b, e, s) && p in s.store
    ensures p in e.images && Spec(e, p).Some?
  {
    assert VolumeOk(b, e, s, p);
    if p in s.held {
      assert HeldOk(e, s, p);
    }
  }

  lemma SteadySettled(b: Backend, e: Config, s: State, p: Name)
    requires Acyclic(e) && Inv(b, e, s) && ReadyOrNothing(e, s, p) && CloneSource(b, s, p).Some?
    ensures Settled(b, e, s, p)
  {
    VolumeHasSpec(b, e, s, p);
  }

  lemma ReadyIsCloned(b: Backend, e: Config, s: State, p: Name)
    requires Acyclic(e) && Inv(b, e, s) && Ready(s, p)
    ensures CloneSource(b, s, p).Some?
  {
    assert VolumeOk(b, e, s, p);
  }

  lemma SteadyHarmless(b: Backend, e: Config, s: State, a: Action)
    requires Acyclic(e) && Inv(b, e, s) && Steady(e, s) && Enabled(b, e, s, a)
    requires a.Fail? ==> !LeavesResidue(b, e, s, a.r)
    ensures Harmless(b, e, s, a)
  {
    if a.Ok? && s.reqs[a.r].want.None? && s.held[Innermost(s, a.r)].phase.Cloning? {
      SteadySettled(b, e, s, e.images[Innermost(s, a.r)].parent.value);
    } else if a.CloneDisk? {
      SteadySettled(b, e, s, s.reqs[a.r].image);
    }
  }

  lemma ReadyStays(b: Backend, e: Config, s: State, a: Action, p: Name)
    requires Acyclic(e) && Inv(b, e, s) && Enabled(b, e, s, a) && !a.Delete? && Ready(s, p)
    ensures Ready(Next(b, e, s, a), p)
  {
    if a.Ok? && s.reqs[a.r].want.None? {
      ReadyStaysOk(b, e, s, a.r, p);
    }
  }

  lemma ReadyReturn(e: Config, s: State, r: ReqId, p: Name)
    requires Acyclic(e) && LocksOk(e, s) && Running(e, s, r) && Ready(s, p)
    ensures Ready(Return(s, r), p)
  {
    var k := |s.reqs[r].chain| - 1;
    if k > 0 {
      assert LinkOk(e, s, r, k - 1);
    }
  }

  lemma ReadyStaysOk(b: Backend, e: Config, s: State, r: ReqId, p: Name)
    requires Acyclic(e) && LocksOk(e, s) && Running(e, s, r) && Ready(s, p)
    requires CanOk(b, e, s, Innermost(s, r), s.held[Innermost(s, r)].phase)
    ensures Ready(StepOk(b, e, s, r), p)
  {
    var n := Innermost(s, r);
    var phase := s.held[n].phase;
    if phase.Checking? && n in s.store {
      ReadyReturn(e, s, r, p);
    } else if phase.Sealing? || phase.SealingDownload? {
      var s0 := s.(store := Sealed(b, s, n));
      LocksFrame(e, s, s0);
      ReadyReturn(e, s0, r, p);
    } else if Goes(phase) {
      GoesOn(b, e, s, r);
    }
  }

  /** The build that returns leaves its image ready, so its caller may clone it. */
  lemma SteadyReturn(b: Backend, e: Config, s: State, s0: State, r: ReqId)
    requires Acyclic(e) && LocksOk(e, s) && Steady(e, s0) && Running(e, s, r)
    requires s == s0.(store := s.store) && s.store.Keys == s0.store.Keys
    requires Innermost(s, r) in s.store || Spec(e, Innermost(s, r)).None?
    ensures Steady(e, Return(s, r))
  {
    var s1 := Return(s, r);
    var n := Innermost(s, r);
    var k := |s.reqs[r].chain| - 1;
    if k > 0 {
      assert LinkOk(e, s, r, k - 1);
    } else {
      assert ChainOk(e, s, r);
    }
    assert ReadyOrNothing(e, s1, n);
    forall m | m in s1.held && m in e.images && s1.held[m].phase.Cloning? && e.images[m].parent.Some?
      ensures ReadyOrNothing(e, s1, e.images[m].parent.value)
    {
      if k > 0 && m == s.reqs[r].chain[k - 1] {
        assert e.images[m].parent.value == n;
      } else {
        SteadyReadyReturn(e, s, s0, r, e.images[m].parent.value);
      }
    }
    forall q | q in s1.reqs && s1.reqs[q].chain == [] && s1.reqs[q].want.None?
      ensures ReadyOrNothing(e, s1, s1.reqs[q].image)
    {
      if q != r {
        SteadyReadyReturn(e, s, s0, r, s1.reqs[q].image);
      }
    }
  }

  lemma SteadyReadyReturn(e: Config, s: State, s0: State, r: ReqId, p: Name)
    requires Acyclic(e) && LocksOk(e, s) && Running(e, s, r) && ReadyOrNothing(e, s0, p)
    requires s == s0.(store := s.store) && s.store.Keys == s0.store.Keys
    ensures ReadyOrNothing(e, Return(s, r), p)
  {
    if Ready(s0, p) {
      ReadyReturn(e, s, r, p);
    }
  }

  /** A step that moves at most the build of `n` and returns from no build. */
  predicate Moves(e: Config, s: State, s1: State, n: Name)
    requires Acyclic(e)
  {
    && (forall m :: m in s1.held && m != n ==> m in s.held && s1.held[m].phase == s.held[m].phase)
    && (forall m :: m in s.store && m != n ==> m in s1.store)
    && (n in s1.held ==> !s1.held[n].phase.Cloning?)
    && (n in s1.held && n in e.images && HasVolume(s1.held[n].phase) ==> n in s1.store || Spec(e, n).None?)
    && (forall q :: q in s1.reqs && s1.reqs[q].chain == [] && s1.reqs[q].want.None? ==>
        q in s.reqs && s.reqs[q] == s1.reqs[q])
  }

  lemma SteadyMoves(e: Config, s: State, s1: State, n: Name)
    requires Acyclic(e) && Steady(e, s) && Moves(e, s, s1, n)
    requires forall p :: Ready(s, p) ==> Ready(s1, p)
    ensures Steady(e, s1)
  {
    forall m | m in s1.held && m in e.images && s1.held[m].phase.Cloning? && e.images[m].parent.Some?
      ensures ReadyOrNothing(e, s1, e.images[m].parent.value)
    {
      assert ReadyOrNothing(e, s, e.images[m].parent.value);
    }
    forall q | q in s1.reqs && s1.reqs[q].chain == [] && s1.reqs[q].want.None?
      ensures ReadyOrNothing(e, s1, s1.reqs[q].image)
    {
      assert ReadyOrNothing(e, s, s.reqs[q].image);
    }
  }

  lemma AcquireMoves(e: Config, s: State, r: ReqId)
    requires Acyclic(e) && r in s.reqs && s.reqs[r].want.Some?
    ensures Moves(e, s, Acquire(s, r), s.reqs[r].want.value)
  {
  }

  lemma FailMoves(e: Config, s: State, r: ReqId, n: Name)
    requires Acyclic(e) && LocksOk(e, s) && Steady(e, s) && r in s.reqs
    requires Running(e, s, r) ==> n == Innermost(s, r)
    requires n in s.held && s.held[n].phase.Cloning? ==> s.held[n].owner == r
    ensures Moves(e, s, StepFail(e, s, r), n)
  {
    if Running(e, s, r) {
      assert LinkOk(e, s, r, |s.reqs[r].chain| - 1);
    }
  }

  lemma SteadyFail(b: Backend, e: Config, s: State, r: ReqId)
    requires Acyclic(e) && Inv(b, e, s) && Steady(e, s) && r in s.reqs
    ensures Steady(e, StepFail(e, s, r))
  {
    forall p | Ready(s, p) ensures Ready(StepFail(e, s, r), p) {
      ReadyStays(b, e, s, Fail(r), p);
    }
    if Running(e, s, r) {
      assert LinkOk(e, s, r, |s.reqs[r].chain| - 1);
      FailMoves(e, s, r, Innermost(s, r));
      SteadyMoves(e, s, StepFail(e, s, r), Innermost(s, r));
    } else {
      AbortSteady(e, s, r);
    }
  }

  lemma AbortSteady(e: Config, s: State, r: ReqId)
    requires Acyclic(e) && Steady(e, s)
    ensures Steady(e, Abort(s, r))
  {
    var s1 := Abort(s, r);
    forall m | m in s1.held && m in e.images && s1.held[m].phase.Cloning? && e.images[m].parent.Some?
      ensures ReadyOrNothing(e, s1, e.images[m].parent.value)
    {
      assert ReadyOrNothing(e, s, e.images[m].parent.value);
    }
    forall q | q in s1.reqs && s1.reqs[q].chain == [] && s1.reqs[q].want.None?
      ensures ReadyOrNothing(e, s1, s1.reqs[q].image)
    {
      assert ReadyOrNothing(e, s, s.reqs[q].image);
    }
  }

  lemma SteadyStepOk(b: Backend, e: Config, s: State, r: ReqId)
    requires Acyclic(e) && Inv(b, e, s) && Steady(e, s) && Running(e, s, r)
    requires CanOk(b, e, s, Innermost(s, r), s.held[Innermost(s, r)].phase)
    ensures Steady(e, StepOk(b, e, s, r))
  {
    var n := Innermost(s, r);
    var phase := s.held[n].phase;
    assert HeldOk(e, s, n);
    if phase.Checking? && n in s.store {
      SteadyReturn(b, e, s, s, r);
    } else if phase.Sealing? || phase.SealingDownload? {
      var s0 := s.(store := Sealed(b, s, n));
      LocksFrame(e, s, s0);
      SteadyReturn(b, e, s0, s, r);
    } else {
      var s1 := StepOk(b, e, s, r);
      forall p | Ready(s, p) ensures Ready(s1, p) {
        ReadyStaysOk(b, e, s, r, p);
      }
      OkMoves(b, e, s, r);
      SteadyMoves(e, s, s1, n);
    }
  }

  lemma GoMoves(b: Backend, e: Config, s: State, r: ReqId)
    requires Acyclic(e) && Steady(e, s) && Running(e, s, r) && Goes(s.held[Innermost(s, r)].phase)
    requires CanOk(b, e, s, Innermost(s, r), s.held[Innermost(s, r)].phase)
    ensures Moves(e, s, StepOk(b, e, s, r), Innermost(s, r))
  {
    var n := Innermost(s, r);
    var s1 := StepOk(b, e, s, r);
    GoesOn(b, e, s, r);
    assert forall m :: m in s.store ==> m in s1.store;
    assert s.held[n].phase.Cloning? || s.held[n].phase.Creating? ==> n in s1.store;
  }

  lemma DestroyMoves(b: Backend, e: Config, s: State, r: ReqId)
    requires Acyclic(e) && LocksOk(e, s) && Running(e, s, r) && s.held[Innermost(s, r)].phase.Destroying?
    requires CanOk(b, e, s, Innermost(s, r), s.held[Innermost(s, r)].phase)
    ensures Moves(e, s, StepOk(b, e, s, r), Innermost(s, r))
  {
    assert LinkOk(e, s, r, |s.reqs[r].chain| - 1);
  }

  lemma CheckMoves(b: Backend, e: Config, s: State, r: ReqId)
    requires Acyclic(e) && Running(e, s, r) && s.held[Innermost(s, r)].phase.Checking? && Innermost(s, r) !in s.store
    ensures Moves(e, s, StepOk(b, e, s, r), Innermost(s, r))
  {
  }

  lemma OkMoves(b: Backend, e: Config, s: State, r: ReqId)
    requires Acyclic(e) && LocksOk(e, s) && Steady(e, s) && Running(e, s, r)
    requires CanOk(b, e, s, Innermost(s, r), s.held[Innermost(s, r)].phase)
    requires var phase := s.held[Innermost(s, r)].phase;
             !(phase.Checking? && Innermost(s, r) in s.store) && !phase.Sealing? && !phase.SealingDownload?
    ensures Moves(e, s, StepOk(b, e, s, r), Innermost(s, r))
  {
    if s.held[Innermost(s, r)].phase.Checking? {
      CheckMoves(b, e, s, r);
    } else if s.held[Innermost(s, r)].phase.Destroying? {
      DestroyMoves(b, e, s, r);
    } else {
      GoMoves(b, e, s, r);
    }
  }

  lemma SteadyNext(b: Backend, e: Config, s: State, a: Action)
    requires Acyclic(e) && Inv(b, e, s) && Steady(e, s) && Enabled(b, e, s, a) && !a.Delete?
    ensures Steady(e, Next(b, e, s, a))
  {
    match a
    case Ok(r) =>
      if s.reqs[r].want.Some? {
        forall p | Ready(s, p) ensures Ready(Acquire(s, r), p) {}
        AcquireMoves(e, s, r);
        SteadyMoves(e, s, Acquire(s, r), s.reqs[r].want.value);
      } else {
        SteadyStepOk(b, e, s, r);
      }
    case Fail(r) => SteadyFail(b, e, s, r);
    case Request(r, image) => ReqSteady(e, s, Next(b, e, s, a));
    case CloneDisk(r, v) => ReqSteady(e, s, Next(b, e, s, a));
  }

  lemma ReqSteady(e: Config, s: State, s1: State)
    requires Acyclic(e) && Steady(e, s) && s1.store == s.store && s1.held == s.held
    requires forall q :: q in s1.reqs && s1.reqs[q].chain == [] && s1.reqs[q].want.None? ==>
        q in s.reqs && s.reqs[q] == s1.reqs[q]
    ensures Steady(e, s1)
  {
    forall m | m in s1.held && m in e.images && s1.held[m].phase.Cloning? && e.images[m].parent.Some?
      ensures ReadyOrNothing(e, s1, e.images[m].parent.value)
    {
      assert ReadyOrNothing(e, s, e.images[m].parent.value);
    }
    forall q | q in s1.reqs && s1.reqs[q].chain == [] && s1.reqs[q].want.None?
      ensures ReadyOrNothing(e, s1, s1.reqs[q].image)
    {
      assert ReadyOrNothing(e, s, s.reqs[q].image);
    }
  }

  lemma {:induction false} SteadyIsHarmless(b: Backend, e: Config, s: State, acts: seq<Action>)
    requires Acyclic(e) && Inv(b, e, s) && Steady(e, s)
    requires ValidRun(b, e, s, acts) && NoResidue(b, e, s, acts) && NoDelete(acts)
    ensures AllHarmless(b, e, s, acts)
    decreases |acts|
  {
    if acts != [] {
      assert !acts[0].Delete?;
      assert NoDelete(acts[1..]);
      SteadyHarmless(b, e, s, acts[0]);
      SteadyNext(b, e, s, acts[0]);
      InvExactly(b, e, s, acts[0]);
      SteadyIsHarmless(b, e, Next(b, e, s, acts[0]), acts[1..]);
    }
  }

  /** As long as nobody deletes images by hand, the cache is coherent on either backend,
      from any coherent store with no request in progress. */
  lemma CoherenceWithoutDeletions(b: Backend, e: Config, s: State, acts: seq<Action>)
    requires Acyclic(e) && Inv(b, e, s) && s.held == map[] && s.reqs == map[]
    requires ValidRun(b, e, s, acts) && NoResidue(b, e, s, acts) && NoDelete(acts)
    ensures Coherent(b, e, Final(b, e, s, acts))
  {
    SteadyIsHarmless(b, e, s, acts);
    HarmlessRun(b, e, s, acts);
  }
}
