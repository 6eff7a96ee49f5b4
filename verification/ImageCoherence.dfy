/**
 Coherence of the image cache: which steps keep every image equal to its
 recursive definition, and that exactly those do.
 */
module ImageCoherence {
  import opened Options
  import opened Images
  import opened ImageInvariant

  /** A failure that leaves a volume behind that is not a finished image: it strikes
      after the volume exists and outside the try, or in the handler itself. */
  predicate LeavesResidue(b: Backend, e: Config, s: State, r: ReqId) {
    && Running(e, s, r) && Innermost(s, r) in s.store
    && var n := Innermost(s, r);
       match s.held[n].phase
       case Fetching => true
       case Resizing => true
       case Booting => true
       case SealingDownload => b.ZFS?
       case Sealing => b.ZFS?
       case Destroying(at) => b.ZFS? || at < |e.images[n].scripts|
       case _ => false
  }

  /** A clone of `src` copies finished content.  On zfs there is no other snapshot; on
      btrfs the live volume must not be in the middle of a rebuild. */
  predicate Settled(b: Backend, e: Config, s: State, src: Name) {
    b.ZFS? || src !in s.held || src !in e.images ||
    match s.held[src].phase
    case Fetching => false
    case Resizing => false
    case Booting => false
    case Scripting(i) => i == |e.images[src].scripts|
    case Destroying(at) => at == |e.images[src].scripts|
    case _ => true
  }

  /** The steps that keep the cache coherent. */
  predicate Harmless(b: Backend, e: Config, s: State, a: Action) {
    match a
    case Fail(r) => !LeavesResidue(b, e, s, r)
    case Ok(r) =>
      Running(e, s, r) && s.held[Innermost(s, r)].phase.Cloning? && e.images[Innermost(s, r)].parent.Some? ==>
        Settled(b, e, s, e.images[Innermost(s, r)].parent.value)
    case CloneDisk(r, v) => r in s.reqs ==> Settled(b, e, s, s.reqs[r].image)
    case _ => true
  }

  // ------------------------------------------------- contents

  lemma OpsAppend(scripts: seq<string>, i: nat)
    requires i < |scripts|
    ensures Ops(scripts[..i + 1]) == Ops(scripts[..i]) + [Script(scripts[i])]
  {
  }

  lemma ScriptedAll(e: Config, n: Name)
    requires Acyclic(e) && n in e.images && e.images[n].parent.Some?
    ensures Scripted(e, n, |e.images[n].scripts|) == Spec(e, n)
  {
    assert e.images[n].scripts[..|e.images[n].scripts|] == e.images[n].scripts;
  }

  lemma ScriptedNone(e: Config, n: Name)
    requires Acyclic(e) && n in e.images
    ensures Scripted(e, n, 0) == Base(e, n)
  {
    assert Ops([]) == [];
    if Base(e, n).Some? {
      assert Base(e, n).value + [] == Base(e, n).value;
    }
  }

  /** Half-built content is never the finished content. */
  lemma UnfinishedDiffers(e: Config, n: Name, phase: Phase)
    requires Acyclic(e) && n in e.images && ShapeOk(e, n, phase)
    ensures phase.Fetching? || phase.Resizing? || phase.Booting?
            || (phase.Scripting? && phase.i < |e.images[n].scripts|)
            || (phase.Destroying? && phase.at < |e.images[n].scripts|) ==>
            Expected(e, n, phase).Some? ==> Expected(e, n, phase) != Spec(e, n)
  {
    if Base(e, n).Some? {
      var k := |Base(e, n).value|;
      if phase.Destroying? && phase.at < |e.images[n].scripts| && phase.at + 1 == |e.images[n].scripts| {
        assert Expected(e, n, phase).value[k + phase.at] == Broken(e.images[n].scripts[phase.at]);
        assert Spec(e, n).value[k + phase.at] == Script(e.images[n].scripts[phase.at]);
      }
    }
  }

  /** The other phases of a build show the finished content. */
  lemma FinishedAgrees(e: Config, n: Name, phase: Phase)
    requires Acyclic(e) && n in e.images && ShapeOk(e, n, phase)
    ensures phase.Checking? || phase.SealingDownload? || phase.Sealing?
            || (phase.Scripting? && phase.i == |e.images[n].scripts|)
            || (phase.Destroying? && phase.at == |e.images[n].scripts|) ==>
            Expected(e, n, phase).Some? ==> Expected(e, n, phase) == Spec(e, n)
  {
    if e.images[n].parent.Some? {
      ScriptedAll(e, n);
    }
  }

  /** A clone copies the finished content of its source exactly when the source is settled. */
  lemma CloneIsSpec(b: Backend, e: Config, s: State, src: Name)
    requires Acyclic(e) && Inv(b, e, s) && CloneSource(b, s, src).Some?
    ensures src in e.images
    ensures CloneSource(b, s, src) == Spec(e, src) <==> Settled(b, e, s, src)
  {
    assert VolumeOk(b, e, s, src);
    if src in s.held {
      assert HeldOk(e, s, src);
      UnfinishedDiffers(e, src, s.held[src].phase);
      FinishedAgrees(e, src, s.held[src].phase);
    }
  }

  // ------------------------------------------------- steps

  /** The volumes other than `n` and their locks have not changed. */
  lemma VolumeFrame(b: Backend, e: Config, s: State, s1: State, m: Name)
    requires Acyclic(e) && m in e.images && m in s.store && VolumeOk(b, e, s, m)
    requires m in s1.store && s1.store[m] == s.store[m]
    requires m in s1.held <==> m in s.held
    requires m in s.held ==> s1.held[m].phase == s.held[m].phase
    ensures VolumeOk(b, e, s1, m)
  {
  }

  /** Leaving the lock of a finished or absent image. */
  lemma ReturnStore(b: Backend, e: Config, s: State, s0: State, r: ReqId)
    requires Acyclic(e) && Inv(b, e, s0) && LocksOk(e, s) && Running(e, s, r)
    requires s == s0.(store := s.store) && s.store.Keys == s0.store.Keys
    requires forall m :: m in s.store && m != Innermost(s, r) ==> s.store[m] == s0.store[m]
    requires Innermost(s, r) in s.store ==> Finished(b, e, Innermost(s, r), s.store[Innermost(s, r)])
    ensures StoreOk(b, e, Return(s, r))
  {
    var s1 := Return(s, r);
    var n := Innermost(s, r);
    var k := |s.reqs[r].chain| - 1;
    if k > 0 {
      assert LinkOk(e, s, r, k - 1);
    }
    forall m | m in s1.store ensures m in e.images && VolumeOk(b, e, s1, m) {
      assert VolumeOk(b, e, s0, m);
      if m != n {
        assert k > 0 ==> m != s.reqs[r].chain[k - 1];
        VolumeFrame(b, e, s0, s1, m);
      }
    }
  }

  lemma AbortStore(b: Backend, e: Config, s: State, r: ReqId)
    requires Acyclic(e) && LocksOk(e, s)
    requires forall m :: m in s.store ==>
               m in e.images &&
               if m in s.held && s.held[m].owner == r then Finished(b, e, m, s.store[m]) else VolumeOk(b, e, s, m)
    requires forall v :: v in s.disks ==> DiskOk(e, s.disks[v])
    ensures StoreOk(b, e, Abort(s, r))
  {
  }

  /** Of all images a request has locked, only the innermost can have a volume. */
  lemma OnlyInnermost(b: Backend, e: Config, s: State, r: ReqId, m: Name)
    requires Acyclic(e) && Inv(b, e, s) && m in s.store && m in s.held && s.held[m].owner == r
    ensures Running(e, s, r) && m == Innermost(s, r) && !s.held[m].phase.InParent?
  {
    assert HeldOk(e, s, m) && VolumeOk(b, e, s, m);
    var c := s.reqs[r].chain;
    var i :| 0 <= i < |c| && c[i] == m;
    assert LinkOk(e, s, r, i);
  }

  lemma FailStore(b: Backend, e: Config, s: State, r: ReqId)
    requires Acyclic(e) && Inv(b, e, s) && r in s.reqs && !LeavesResidue(b, e, s, r)
    requires !(Running(e, s, r) && s.held[Innermost(s, r)].phase.Scripting?)
    ensures StoreOk(b, e, Abort(s, r))
  {
    forall m | m in s.store && m in s.held && s.held[m].owner == r
      ensures Finished(b, e, m, s.store[m])
    {
      OnlyInnermost(b, e, s, r, m);
      assert HeldOk(e, s, m) && VolumeOk(b, e, s, m);
      FinishedAgrees(e, m, s.held[m].phase);
    }
    AbortStore(b, e, s, r);
  }

  /** A failed script: its volume is marked broken and the handler runs. */
  lemma ScriptFailStore(b: Backend, e: Config, s: State, r: ReqId)
    requires Acyclic(e) && Inv(b, e, s)
    requires Running(e, s, r) && s.held[Innermost(s, r)].phase.Scripting?
    ensures StoreOk(b, e, StepFail(e, s, r))
  {
    var n := Innermost(s, r);
    var s1 := StepFail(e, s, r);
    assert HeldOk(e, s, n);
    forall m | m in s1.store ensures m in e.images && VolumeOk(b, e, s1, m) {
      assert VolumeOk(b, e, s, m);
    }
  }

  lemma AdvanceStore(b: Backend, e: Config, s: State, r: ReqId, store: map<Name, Vol>, p: Phase)
    requires Acyclic(e) && Inv(b, e, s) && Running(e, s, r) && !p.Checking?
    requires forall m :: m in store ==>
        m in e.images && (m != Innermost(s, r) ==> m in s.store && store[m] == s.store[m])
    requires var n := Innermost(s, r);
             n in store ==> Expected(e, n, p) == Some(store[n].live) && store[n].snap.None?
    ensures StoreOk(b, e, SetPhase(s.(store := store), Innermost(s, r), p))
  {
    var s1 := SetPhase(s.(store := store), Innermost(s, r), p);
    forall m | m in s1.store ensures m in e.images && VolumeOk(b, e, s1, m) {
      if m != Innermost(s, r) {
        VolumeFrame(b, e, s, s1, m);
      }
    }
  }

  lemma CloneStore(b: Backend, e: Config, s: State, r: ReqId)
    requires Acyclic(e) && Inv(b, e, s) && Enabled(b, e, s, Ok(r)) && Running(e, s, r)
    requires s.held[Innermost(s, r)].phase.Cloning? && Harmless(b, e, s, Ok(r))
    ensures StoreOk(b, e, StepOk(b, e, s, r))
  {
    var n := Innermost(s, r);
    assert HeldOk(e, s, n);
    var p := e.images[n].parent.value;
    CloneIsSpec(b, e, s, p);
    ScriptedNone(e, n);
    ScriptedAll(e, n);
    AdvanceStore(b, e, s, r, s.store[n := Vol(CloneSource(b, s, p).value, None)], AfterBase(e.images[n]));
  }

  lemma GoStore(b: Backend, e: Config, s: State, r: ReqId)
    requires Acyclic(e) && Inv(b, e, s) && Enabled(b, e, s, Ok(r)) && Running(e, s, r)
    requires Goes(s.held[Innermost(s, r)].phase) && !s.held[Innermost(s, r)].phase.Cloning?
    ensures StoreOk(b, e, StepOk(b, e, s, r))
  {
    var n := Innermost(s, r);
    var phase := s.held[n].phase;
    var s1 := StepOk(b, e, s, r);
    assert HeldOk(e, s, n);
    GoesOn(b, e, s, r);
    if n in s.store {
      assert VolumeOk(b, e, s, n);
    }
    GoExpected(e, n, phase);
    AdvanceStore(b, e, s, r, s1.store, Following(e.images[n], phase));
  }

  /** What each command adds is what the next phase expects. */
  lemma GoExpected(e: Config, n: Name, phase: Phase)
    requires Acyclic(e) && n in e.images && ShapeOk(e, n, phase)
    ensures phase.Fetching? ==> Expected(e, n, Resizing) == Some([] + [Fetch(e.images[n].url.value)])
    ensures phase.Resizing? ==> Expected(e, n, SealingDownload) == Some([Fetch(e.images[n].url.value)] + [Resize])
    ensures phase.Booting? ==> Expected(e, n, Scripting(0)) == Expected(e, n, Booting)
    ensures phase.Scripting? && phase.i < |e.images[n].scripts| && Scripted(e, n, phase.i).Some? ==>
            Expected(e, n, Scripting(phase.i + 1)) ==
            Some(Scripted(e, n, phase.i).value + [Script(e.images[n].scripts[phase.i])])
    ensures phase.Scripting? && phase.i == |e.images[n].scripts| && Scripted(e, n, phase.i).Some? ==>
            Expected(e, n, Sealing) == Scripted(e, n, phase.i)
  {
    ScriptedNone(e, n);
    if phase.Fetching? || phase.Resizing? {
      var f := Fetch(e.images[n].url.value);
      assert [] + [f] == [f] && [f] + [Resize] == [f, Resize];
    }
    if phase.Scripting? && Base(e, n).Some? {
      ScriptedAll(e, n);
      if phase.i < |e.images[n].scripts| {
        OpsAppend(e.images[n].scripts, phase.i);
        var c := Base(e, n).value;
        var x := Ops(e.images[n].scripts[..phase.i]);
        var y := [Script(e.images[n].scripts[phase.i])];
        assert c + (x + y) == (c + x) + y;
      }
    }
  }

  /** The snapshot finishes the image. */
  lemma SealedVolume(b: Backend, e: Config, s: State, n: Name)
    requires Acyclic(e) && StoreOk(b, e, s) && n in s.held
    requires s.held[n].phase.Sealing? || s.held[n].phase.SealingDownload?
    ensures Sealed(b, s, n).Keys == s.store.Keys
    ensures forall m :: m in s.store && m != n ==> Sealed(b, s, n)[m] == s.store[m]
    ensures n in s.store ==> n in e.images && Finished(b, e, n, Sealed(b, s, n)[n])
  {
    if n in s.store {
      assert VolumeOk(b, e, s, n);
    }
  }

  lemma SealStore(b: Backend, e: Config, s: State, r: ReqId)
    requires Acyclic(e) && Inv(b, e, s) && Running(e, s, r)
    requires CanOk(b, e, s, Innermost(s, r), s.held[Innermost(s, r)].phase)
    requires s.held[Innermost(s, r)].phase.Sealing? || s.held[Innermost(s, r)].phase.SealingDownload?
    ensures StoreOk(b, e, StepOk(b, e, s, r))
  {
    var s0 := s.(store := Sealed(b, s, Innermost(s, r)));
    SealedVolume(b, e, s, Innermost(s, r));
    LocksFrame(e, s, s0);
    ReturnStore(b, e, s0, s, r);
  }

  lemma CheckStore(b: Backend, e: Config, s: State, r: ReqId)
    requires Acyclic(e) && Inv(b, e, s) && Running(e, s, r) && s.held[Innermost(s, r)].phase.Checking?
    ensures StoreOk(b, e, StepOk(b, e, s, r))
  {
    var n := Innermost(s, r);
    if n in s.store {
      assert VolumeOk(b, e, s, n);
      ReturnStore(b, e, s, s, r);
    } else {
      var s1 := StepOk(b, e, s, r);
      forall m | m in s1.store ensures m in e.images && VolumeOk(b, e, s1, m) {
        VolumeFrame(b, e, s, s1, m);
      }
    }
  }

  lemma DestroyStore(b: Backend, e: Config, s: State, r: ReqId)
    requires Acyclic(e) && Inv(b, e, s) && Enabled(b, e, s, Ok(r)) && Running(e, s, r)
    requires s.held[Innermost(s, r)].phase.Destroying?
    ensures StoreOk(b, e, StepOk(b, e, s, r))
  {
    var n := Innermost(s, r);
    var s0 := s.(store := s.store - {n});
    LocksFrame(e, s, s0);
    forall m | m in s0.store ensures m in e.images && !(m in s.held && s.held[m].owner == r) && VolumeOk(b, e, s0, m) {
      VolumeFrame(b, e, s, s0, m);
      if m in s.held && s.held[m].owner == r {
        OnlyInnermost(b, e, s, r, m);
      }
    }
    AbortStore(b, e, s0, r);
  }

  /** A harmless step keeps the cache coherent. */
  lemma NextStore(b: Backend, e: Config, s: State, a: Action)
    requires Acyclic(e) && Inv(b, e, s) && Enabled(b, e, s, a) && Harmless(b, e, s, a)
    ensures StoreOk(b, e, Next(b, e, s, a))
  {
    match a
    case Request(_, _) => SameStore(b, e, s, Next(b, e, s, a));
    case Delete(_) => SameStore(b, e, s, Next(b, e, s, a));
    case Ok(r) =>
      if s.reqs[r].want.Some? {
        AcquireStore(b, e, s, r);
      } else {
        var phase := s.held[Innermost(s, r)].phase;
        if phase.Checking? {
          CheckStore(b, e, s, r);
        } else if phase.Cloning? {
          CloneStore(b, e, s, r);
        } else if Goes(phase) {
          GoStore(b, e, s, r);
        } else if phase.Destroying? {
          DestroyStore(b, e, s, r);
        } else {
          SealStore(b, e, s, r);
        }
      }
    case Fail(r) =>
      if Running(e, s, r) && s.held[Innermost(s, r)].phase.Scripting? {
        ScriptFailStore(b, e, s, r);
      } else {
        FailStore(b, e, s, r);
      }
    case CloneDisk(r, v) =>
      CloneIsSpec(b, e, s, s.reqs[r].image);
      SameStore(b, e, s, Next(b, e, s, a));
  }

  lemma SameStore(b: Backend, e: Config, s: State, s1: State)
    requires Acyclic(e) && StoreOk(b, e, s) && s1.held == s.held
    requires forall m :: m in s1.store ==> m in s.store && s1.store[m] == s.store[m]
    requires forall v :: v in s1.disks ==> DiskOk(e, s1.disks[v])
    ensures StoreOk(b, e, s1)
  {
    forall m | m in s1.store ensures m in e.images && VolumeOk(b, e, s1, m) {
      VolumeFrame(b, e, s, s1, m);
    }
  }

  lemma AcquireStore(b: Backend, e: Config, s: State, r: ReqId)
    requires Acyclic(e) && StoreOk(b, e, s) && r in s.reqs && s.reqs[r].want.Some? && s.reqs[r].want.value !in s.held
    ensures StoreOk(b, e, Acquire(s, r))
  {
    forall m | m in s.store ensures m in e.images && VolumeOk(b, e, Acquire(s, r), m) {
      assert VolumeOk(b, e, s, m);
    }
  }

  // ------------------------------------------------- harm is real

  /** A residue is an unlocked image that is not what it should be. */
  lemma ResidueIsIncoherent(b: Backend, e: Config, s: State, r: ReqId)
    requires Acyclic(e) && Inv(b, e, s) && LeavesResidue(b, e, s, r)
    ensures var s1 := StepFail(e, s, r);
            var n := Innermost(s, r);
            n in s1.store && n !in s1.held && !Finished(b, e, n, s1.store[n])
  {
    var n := Innermost(s, r);
    assert LinkOk(e, s, r, |s.reqs[r].chain| - 1) && HeldOk(e, s, n) && VolumeOk(b, e, s, n);
    UnfinishedDiffers(e, n, s.held[n].phase);
  }

  /** A clone of an unsettled source is wrong. */
  lemma UnsettledIsIncoherent(b: Backend, e: Config, s: State, r: ReqId)
    requires Acyclic(e) && Inv(b, e, s) && Enabled(b, e, s, Ok(r)) && !Harmless(b, e, s, Ok(r))
    ensures var s1 := Next(b, e, s, Ok(r));
            var n := Innermost(s, r);
            n in s1.store && s1.store[n].live != Base(e, n).value && !VolumeOk(b, e, s1, n)
  {
    var n := Innermost(s, r);
    assert HeldOk(e, s, n);
    CloneIsSpec(b, e, s, e.images[n].parent.value);
    CloningStep(b, e, s, r);
    NewCloneExpects(b, e, Next(b, e, s, Ok(r)), n);
  }

  lemma CloningStep(b: Backend, e: Config, s: State, r: ReqId)
    requires Enabled(b, e, s, Ok(r)) && Running(e, s, r) && s.held[Innermost(s, r)].phase.Cloning?
    ensures var n := Innermost(s, r);
            var s1 := Next(b, e, s, Ok(r));
            && e.images[n].parent.Some? && CloneSource(b, s, e.images[n].parent.value).Some?
            && n in s1.store && s1.store[n].live == CloneSource(b, s, e.images[n].parent.value).value
            && n in s1.held && s1.held[n].phase == AfterBase(e.images[n])
  {
  }

  /** Right after cloning, a volume is right exactly if it is the base of the image. */
  lemma NewCloneExpects(b: Backend, e: Config, s: State, n: Name)
    requires Acyclic(e) && n in e.images && n in s.store && n in s.held && s.held[n].phase == AfterBase(e.images[n])
    requires e.images[n].parent.Some?
    ensures VolumeOk(b, e, s, n) ==> Base(e, n) == Some(s.store[n].live)
  {
    ScriptedNone(e, n);
    ScriptedAll(e, n);
  }

  /** Exactly the harmless steps keep the invariant. */
  lemma InvExactly(b: Backend, e: Config, s: State, a: Action)
    requires Acyclic(e) && Inv(b, e, s) && Enabled(b, e, s, a)
    ensures Inv(b, e, Next(b, e, s, a)) <==> Harmless(b, e, s, a)
  {
    NextLocks(b, e, s, a);
    if Harmless(b, e, s, a) {
      NextStore(b, e, s, a);
    } else {
      match a
      case Ok(r) => UnsettledIsIncoherent(b, e, s, r);
      case Fail(r) => ResidueIsIncoherent(b, e, s, r);
      case CloneDisk(r, v) =>
        CloneIsSpec(b, e, s, s.reqs[r].image);
        assert !DiskOk(e, Next(b, e, s, a).disks[v]);
    }
  }
}
