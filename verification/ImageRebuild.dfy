/**
 The fate of a failed build: nothing of it is left, and the next request builds the image
 again from scratch.
 */
module ImageRebuild {
  import opened Options
  import opened Images
  import opened ImageInvariant
  import opened ImageCoherence
  import opened ImageTheorems
  import opened ImageProgress

  // ------------------------------------------------- the handler

  predicate NoStepOf(acts: seq<Action>, r: ReqId) {
    forall i :: 0 <= i < |acts| ==> !ActsFor(acts[i], r)
  }

  predicate SameVolume(s: State, s1: State, m: Name) {
    (m in s1.store <==> m in s.store) && (m in s.store ==> s1.store[m] == s.store[m])
  }

  /** Request `r` is in the handler for `n`. */
  predicate Handling(e: Config, s: State, r: ReqId, n: Name) {
    LocksOk(e, s) && Running(e, s, r) && Innermost(s, r) == n && s.held[n].owner == r && s.held[n].phase.Destroying?
  }

  lemma HandlingStep(b: Backend, e: Config, s: State, a: Action, r: ReqId, n: Name)
    requires Acyclic(e) && Handling(e, s, r, n) && Enabled(b, e, s, a) && !ActsFor(a, r)
    ensures Handling(e, Next(b, e, s, a), r, n)
    ensures a != Delete(n) ==> SameVolume(s, Next(b, e, s, a), n)
  {
    NextLocks(b, e, s, a);
    OthersLeaveLocks(b, e, s, a, r, n);
    OthersKeepRequest(b, e, s, a, r);
    if a != Delete(n) {
      OnlyHolderWrites(b, e, s, a, n);
    }
  }

  /** While others move, the handler keeps its lock, and nobody but a hand touches the volume. */
  lemma {:induction false} HandlerWaits(b: Backend, e: Config, s: State, acts: seq<Action>, r: ReqId, n: Name)
    requires Acyclic(e) && Handling(e, s, r, n) && ValidRun(b, e, s, acts) && NoStepOf(acts, r)
    ensures Handling(e, Final(b, e, s, acts), r, n)
    ensures var s1 := Final(b, e, s, acts);
            n in s1.store ==> n in s.store && s1.store[n] == s.store[n]
    decreases |acts|
  {
    if acts != [] {
      HandlingStep(b, e, s, acts[0], r, n);
      HandlerWaits(b, e, Next(b, e, s, acts[0]), acts[1..], r, n);
    }
  }

  lemma FailureHandled(b: Backend, e: Config, s: State, r: ReqId)
    requires Acyclic(e) && LocksOk(e, s) && Running(e, s, r) && s.held[Innermost(s, r)].phase.Scripting?
    ensures var s1 := Next(b, e, s, Fail(r));
            && Handling(e, s1, r, Innermost(s, r)) && s1.reqs == s.reqs
            && forall m :: m != Innermost(s, r) ==> SameVolume(s, s1, m)
  {
    NextLocks(b, e, s, Fail(r));
    assert ChainOk(e, s, r) && LinkOk(e, s, r, |s.reqs[r].chain| - 1);
  }

  /** The end of the handler: vm.destroy() removes the volume, or fails because a hand was faster. */
  function HandlerEnd(s: State, r: ReqId, n: Name): Action {
    if n in s.store then Ok(r) else Fail(r)
  }

  /** `s1` is `s` without the volume `n` and without request `r` and its locks. */
  predicate GoneFrom(s: State, s1: State, r: ReqId, n: Name) {
    && s1.store == s.store - {n} && s1.reqs == s.reqs - {r} && s1.disks == s.disks
    && s1.held == map m | m in s.held && s.held[m].owner != r :: s.held[m]
  }

  lemma HandlerEnds(b: Backend, e: Config, s: State, r: ReqId, n: Name)
    requires Handling(e, s, r, n)
    ensures Enabled(b, e, s, HandlerEnd(s, r, n)) && GoneFrom(s, Next(b, e, s, HandlerEnd(s, r, n)), r, n)
  {
  }

  /** When a build script or the shutdown fails, no other image changes; whatever others do before
      the handler ends, it then leaves no volume of the image and no lock of the request, and
      every other image and lock is as it was. */
  lemma FailedBuildLeavesNothing(b: Backend, e: Config, s: State, r: ReqId, acts: seq<Action>)
    requires Acyclic(e) && LocksOk(e, s) && Running(e, s, r) && s.held[Innermost(s, r)].phase.Scripting?
    requires ValidRun(b, e, Next(b, e, s, Fail(r)), acts) && NoStepOf(acts, r)
    ensures var n := Innermost(s, r);
            var s1 := Next(b, e, s, Fail(r));
            var s2 := Final(b, e, s1, acts);
            && (forall m :: m != n ==> SameVolume(s, s1, m))
            && Enabled(b, e, s2, HandlerEnd(s2, r, n))
            && GoneFrom(s2, Next(b, e, s2, HandlerEnd(s2, r, n)), r, n)
  {
    var n := Innermost(s, r);
    FailureHandled(b, e, s, r);
    HandlerWaits(b, e, Next(b, e, s, Fail(r)), acts, r, n);
    HandlerEnds(b, e, Final(b, e, Next(b, e, s, Fail(r)), acts), r, n);
  }

  lemma EndIsHarmless(b: Backend, e: Config, s: State, r: ReqId, n: Name)
    requires Handling(e, s, r, n)
    ensures Harmless(b, e, s, HandlerEnd(s, r, n))
  {
  }

  /** In every harmless run after that, once the image is there again and unlocked, it is what it
      should be, whether it is a download or built from a parent. */
  lemma FailedBuildIsRebuilt(b: Backend, e: Config, s: State, r: ReqId, acts: seq<Action>, later: seq<Action>)
    requires Acyclic(e) && Inv(b, e, s) && Running(e, s, r) && s.held[Innermost(s, r)].phase.Scripting?
    requires var s1 := Next(b, e, s, Fail(r));
             && ValidRun(b, e, s1, acts) && NoStepOf(acts, r) && AllHarmless(b, e, s1, acts)
             && var s2 := Final(b, e, s1, acts);
             && Enabled(b, e, s2, HandlerEnd(s2, r, Innermost(s, r)))
             && var s3 := Next(b, e, s2, HandlerEnd(s2, r, Innermost(s, r)));
             && ValidRun(b, e, s3, later) && AllHarmless(b, e, s3, later)
    ensures var n := Innermost(s, r);
            var s2 := Final(b, e, Next(b, e, s, Fail(r)), acts);
            var s3 := Next(b, e, s2, HandlerEnd(s2, r, n));
            var s4 := Final(b, e, s3, later);
            n !in s3.store && (n in s4.store && n !in s4.held ==> n in e.images && Finished(b, e, n, s4.store[n]))
  {
    var n := Innermost(s, r);
    var s1 := Next(b, e, s, Fail(r));
    FailedBuildLeavesNothing(b, e, s, r, acts);
    InvExactly(b, e, s, Fail(r));
    HarmlessRun(b, e, s1, acts);
    FailureHandled(b, e, s, r);
    HandlerWaits(b, e, s1, acts, r, n);
    var s2 := Final(b, e, s1, acts);
    EndIsHarmless(b, e, s2, r, n);
    InvExactly(b, e, s2, HandlerEnd(s2, r, n));
    HarmlessRun(b, e, Next(b, e, s2, HandlerEnd(s2, r, n)), later);
  }

  // ------------------------------------------------- from scratch

  /** A volume that was not there begins as an empty download or as a clone of the parent, made by
      the request that holds the lock. */
  lemma BeginsFromScratch(b: Backend, e: Config, s: State, a: Action, n: Name)
    requires Enabled(b, e, s, a) && n !in s.store && n in Next(b, e, s, a).store
    ensures a.Ok? && Running(e, s, a.r) && Innermost(s, a.r) == n
    ensures var v := Next(b, e, s, a).store[n];
            || (s.held[n].phase.Creating? && v == Vol([], None))
            || (s.held[n].phase.Cloning? && e.images[n].parent.Some? && v.snap.None?
                && CloneSource(b, s, e.images[n].parent.value) == Some(v.live))
  {
  }

  /** Every image that the request has locked has a content, because the one it asks for has. */
  lemma {:induction false} ChainHasSpec(e: Config, s: State, r: ReqId, i: nat)
    requires Acyclic(e) && r in s.reqs && ChainOk(e, s, r) && i < |s.reqs[r].chain|
    requires Spec(e, s.reqs[r].image).Some?
    ensures s.reqs[r].chain[i] in e.images && Spec(e, s.reqs[r].chain[i]).Some?
  {
    assert LinkOk(e, s, r, i);
    if i > 0 {
      ChainHasSpec(e, s, r, i - 1);
      assert LinkOk(e, s, r, i - 1);
    }
  }

  /** Request `r` is alone and no build of it has failed. */
  predicate Alone(b: Backend, e: Config, s: State, r: ReqId)
    requires Acyclic(e)
  {
    && Inv(b, e, s) && Steady(e, s) && s.reqs.Keys == {r} && s.reqs[r].image in e.images
    && Spec(e, s.reqs[r].image).Some? && NoHandler(s)
  }

  lemma AloneWants(b: Backend, e: Config, s: State, r: ReqId)
    requires Acyclic(e) && Alone(b, e, s, r) && s.reqs[r].want.Some?
    ensures Enabled(b, e, s, Ok(r))
  {
    if s.reqs[r].want.value in s.held {
      HolderWaitsLower(e, s, s.reqs[r].want.value);
      assert false;
    }
  }

  lemma AloneCan(b: Backend, e: Config, s: State, r: ReqId, n: Name)
    requires Acyclic(e) && Alone(b, e, s, r) && Running(e, s, r) && n == Innermost(s, r)
    requires ShapeOk(e, n, s.held[n].phase) && Spec(e, n).Some? && !s.held[n].phase.InParent?
    ensures CanOk(b, e, s, n, s.held[n].phase)
  {
    var phase := s.held[n].phase;
    if n in s.store {
      assert VolumeOk(b, e, s, n);
    }
    if phase.Cloning? {
      assert ReadyOrNothing(e, s, e.images[n].parent.value);
      ReadyIsCloned(b, e, s, e.images[n].parent.value);
    }
  }

  lemma AloneEnabled(b: Backend, e: Config, s: State, r: ReqId)
    requires Acyclic(e) && Alone(b, e, s, r) && (s.reqs[r].want.Some? || s.reqs[r].chain != [])
    ensures Enabled(b, e, s, Ok(r))
  {
    if s.reqs[r].want.Some? {
      AloneWants(b, e, s, r);
    } else {
      var k := |s.reqs[r].chain| - 1;
      assert ChainOk(e, s, r) && LinkOk(e, s, r, k) && HeldOk(e, s, s.reqs[r].chain[k]);
      ChainHasSpec(e, s, r, k);
      AloneCan(b, e, s, r, s.reqs[r].chain[k]);
    }
  }

  predicate NoHandler(s: State) {
    forall m :: m in s.held ==> !s.held[m].phase.Destroying?
  }

  lemma ReturnNoHandler(s: State, r: ReqId)
    requires r in s.reqs && s.reqs[r].chain != [] && NoHandler(s)
    ensures NoHandler(Return(s, r)) && Return(s, r).reqs.Keys == s.reqs.Keys
        && Return(s, r).reqs[r].image == s.reqs[r].image
  {
  }

  lemma OkNoHandler(b: Backend, e: Config, s: State, r: ReqId)
    requires Running(e, s, r) && NoHandler(s)
    requires CanOk(b, e, s, Innermost(s, r), s.held[Innermost(s, r)].phase)
    ensures var s1 := StepOk(b, e, s, r);
            NoHandler(s1) && s1.reqs.Keys == s.reqs.Keys && s1.reqs[r].image == s.reqs[r].image
  {
    var n := Innermost(s, r);
    var phase := s.held[n].phase;
    if Goes(phase) {
      GoesOn(b, e, s, r);
    } else if phase.Sealing? || phase.SealingDownload? {
      ReturnNoHandler(s.(store := Sealed(b, s, n)), r);
    } else if n in s.store {
      ReturnNoHandler(s, r);
    }
  }

  lemma NoNewHandler(b: Backend, e: Config, s: State, r: ReqId)
    requires Enabled(b, e, s, Ok(r)) && NoHandler(s)
    ensures var s1 := Next(b, e, s, Ok(r));
            NoHandler(s1) && s1.reqs.Keys == s.reqs.Keys && s1.reqs[r].image == s.reqs[r].image
  {
    if s.reqs[r].want.None? {
      OkNoHandler(b, e, s, r);
    }
  }

  lemma AloneStep(b: Backend, e: Config, s: State, r: ReqId)
    requires Acyclic(e) && Alone(b, e, s, r) && Enabled(b, e, s, Ok(r))
    ensures Alone(b, e, Next(b, e, s, Ok(r)), r) && Work(e, Next(b, e, s, Ok(r)), r) < Work(e, s, r)
    ensures Next(b, e, s, Ok(r)).reqs[r].image == s.reqs[r].image
  {
    SteadyHarmless(b, e, s, Ok(r));
    InvExactly(b, e, s, Ok(r));
    SteadyNext(b, e, s, Ok(r));
    OwnStepWorks(b, e, s, Ok(r), r);
    NoNewHandler(b, e, s, r);
  }

  lemma RunFirst(b: Backend, e: Config, s: State, a: Action, acts: seq<Action>)
    requires Enabled(b, e, s, a) && ValidRun(b, e, Next(b, e, s, a), acts)
    ensures ValidRun(b, e, s, [a] + acts) && Final(b, e, s, [a] + acts) == Final(b, e, Next(b, e, s, a), acts)
  {
    assert ([a] + acts)[1..] == acts;
  }

  /** The build of `n` is over: it is there, unlocked, finished, and ready to be cloned for a VM. */
  predicate Built(b: Backend, e: Config, s: State, n: Name)
    requires Acyclic(e)
  {
    s.held == map[] && n in s.store && n in e.images && Finished(b, e, n, s.store[n])
  }

  lemma AloneIsBuilt(b: Backend, e: Config, s: State, r: ReqId)
    requires Acyclic(e) && Alone(b, e, s, r) && s.reqs[r].want.None? && s.reqs[r].chain == []
    ensures Built(b, e, s, s.reqs[r].image)
  {
    assert forall m :: m in s.held ==> HeldOk(e, s, m);
    assert s.held.Keys == {};
    assert ReadyOrNothing(e, s, s.reqs[r].image);
    assert VolumeOk(b, e, s, s.reqs[r].image);
  }

  /** Only successful commands of request `r`. */
  predicate AllSucceed(acts: seq<Action>, r: ReqId) {
    forall i :: 0 <= i < |acts| ==> acts[i] == Ok(r)
  }

  lemma SucceedFirst(acts: seq<Action>, r: ReqId)
    requires AllSucceed(acts, r)
    ensures AllSucceed([Ok(r)] + acts, r)
  {
  }

  lemma {:induction false} BuildCompletes(b: Backend, e: Config, s: State, r: ReqId) returns (acts: seq<Action>)
    requires Acyclic(e) && Alone(b, e, s, r)
    ensures ValidRun(b, e, s, acts) && AllSucceed(acts, r)
    ensures var s1 := Final(b, e, s, acts);
            Alone(b, e, s1, r) && s1.reqs[r] == Req(s.reqs[r].image, [], None) && Built(b, e, s1, s.reqs[r].image)
    decreases Work(e, s, r)
  {
    if s.reqs[r].want.None? && s.reqs[r].chain == [] {
      AloneIsBuilt(b, e, s, r);
      acts := [];
    } else {
      AloneEnabled(b, e, s, r);
      AloneStep(b, e, s, r);
      var rest := BuildCompletes(b, e, Next(b, e, s, Ok(r)), r);
      RunFirst(b, e, s, Ok(r), rest);
      SucceedFirst(rest, r);
      acts := [Ok(r)] + rest;
    }
  }

  lemma AskedAlone(b: Backend, e: Config, s: State, r: ReqId, n: Name)
    requires Acyclic(e) && Inv(b, e, s) && s.held == map[] && s.reqs == map[]
    requires n in e.images && Spec(e, n).Some?
    ensures Enabled(b, e, s, Request(r, n)) && Alone(b, e, Next(b, e, s, Request(r, n)), r)
    ensures Next(b, e, s, Request(r, n)).reqs[r].image == n
  {
    InvExactly(b, e, s, Request(r, n));
  }

  lemma DiskIsCloned(b: Backend, e: Config, s: State, r: ReqId, n: Name, v: nat)
    requires Acyclic(e) && Alone(b, e, s, r) && s.reqs[r] == Req(n, [], None) && v !in s.disks
    ensures Enabled(b, e, s, CloneDisk(r, v))
    ensures Next(b, e, s, CloneDisk(r, v)).disks == s.disks[v := Disk(n, Spec(e, n).value)]
  {
    assert ReadyOrNothing(e, s, n);
    ReadyIsCloned(b, e, s, n);
    SteadyHarmless(b, e, s, CloneDisk(r, v));
    CloneIsSpec(b, e, s, n);
  }

  /** From any good store, a request for any image that has a content, run with commands that
      succeed, ends with the image built, down the whole parent chain, and then with a disk for its
      VM that has the content of that image. */
  lemma RebuildSucceeds(b: Backend, e: Config, s: State, r: ReqId, n: Name, v: nat) returns (acts: seq<Action>)
    requires Acyclic(e) && Inv(b, e, s) && s.held == map[] && s.reqs == map[] && v !in s.disks
    requires n in e.images && Spec(e, n).Some?
    ensures ValidRun(b, e, s, [Request(r, n)] + acts) && AllSucceed(acts, r)
    ensures var s1 := Final(b, e, s, [Request(r, n)] + acts);
            && Built(b, e, s1, n) && Enabled(b, e, s1, CloneDisk(r, v))
            && Next(b, e, s1, CloneDisk(r, v)).disks == s.disks[v := Disk(n, Spec(e, n).value)]
  {
    AskedAlone(b, e, s, r, n);
    var s0 := Next(b, e, s, Request(r, n));
    acts := BuildCompletes(b, e, s0, r);
    RunFirst(b, e, s, Request(r, n), acts);
    DisksStay(b, e, s0, acts, r);
    DiskIsCloned(b, e, Final(b, e, s0, acts), r, n, v);
  }

  lemma {:induction false} DisksStay(b: Backend, e: Config, s: State, acts: seq<Action>, r: ReqId)
    requires ValidRun(b, e, s, acts) && AllSucceed(acts, r)
    ensures Final(b, e, s, acts).disks == s.disks
    decreases |acts|
  {
    if acts != [] {
      assert AllSucceed(acts[1..], r);
      DisksStay(b, e, Next(b, e, s, acts[0]), acts[1..], r);
    }
  }

  // ------------------------------------------------- what a request gets

  /** A request asks for the same image as long as it lasts. */
  lemma ImageStays(b: Backend, e: Config, s: State, a: Action, r: ReqId)
    requires Enabled(b, e, s, a) && r in s.reqs && r in Next(b, e, s, a).reqs
    ensures Next(b, e, s, a).reqs[r].image == s.reqs[r].image
  {
    if !ActsFor(a, r) {
      OthersKeepRequest(b, e, s, a, r);
    } else if a.Ok? && s.reqs[r].want.None? && Goes(s.held[Innermost(s, r)].phase) {
      GoesOn(b, e, s, r);
    }
  }

  lemma {:induction false} ImageStaysRun(b: Backend, e: Config, s: State, acts: seq<Action>, r: ReqId, n: Name)
    requires ValidRun(b, e, s, acts) && (r in s.reqs ==> s.reqs[r].image == n)
    requires forall i :: 0 <= i < |acts| ==> !(acts[i].Request? && acts[i].r == r)
    ensures var s1 := Final(b, e, s, acts); r in s1.reqs ==> s1.reqs[r].image == n
    decreases |acts|
  {
    if acts != [] {
      var s1 := Next(b, e, s, acts[0]);
      if r in s1.reqs {
        StaysAway(b, e, s, acts[0], r);
        ImageStays(b, e, s, acts[0], r);
      }
      ImageStaysRun(b, e, s1, acts[1..], r, n);
    }
  }

  lemma StaysAway(b: Backend, e: Config, s: State, a: Action, r: ReqId)
    requires Enabled(b, e, s, a) && !(a.Request? && a.r == r) && r in Next(b, e, s, a).reqs
    ensures r in s.reqs
  {
    if a.Ok? && s.reqs[a.r].want.None? && Goes(s.held[Innermost(s, a.r)].phase) {
      GoesOn(b, e, s, a.r);
    }
  }

  /** In every harmless run, whatever others do, the disk that a request for image `n` gets is a disk
      of `n` with the content of `n`, and no other disk changes. */
  lemma DiskIsWhatWasAsked(b: Backend, e: Config, s: State, r: ReqId, n: Name, acts: seq<Action>, v: nat)
    requires Acyclic(e) && Inv(b, e, s) && Enabled(b, e, s, Request(r, n))
    requires var s0 := Next(b, e, s, Request(r, n));
             && ValidRun(b, e, s0, acts) && AllHarmless(b, e, s0, acts)
             && var s1 := Final(b, e, s0, acts);
                Enabled(b, e, s1, CloneDisk(r, v)) && Harmless(b, e, s1, CloneDisk(r, v))
    requires forall i :: 0 <= i < |acts| ==> !(acts[i].Request? && acts[i].r == r)
    ensures var s1 := Final(b, e, Next(b, e, s, Request(r, n)), acts);
            Spec(e, n).Some? && Next(b, e, s1, CloneDisk(r, v)).disks == s1.disks[v := Disk(n, Spec(e, n).value)]
  {
    var s0 := Next(b, e, s, Request(r, n));
    InvExactly(b, e, s, Request(r, n));
    HarmlessRun(b, e, s0, acts);
    ImageStaysRun(b, e, s0, acts, r, n);
    CloneIsSpec(b, e, Final(b, e, s0, acts), n);
  }
}
