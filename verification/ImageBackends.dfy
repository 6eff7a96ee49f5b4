/**
 The two storage backends compared: cloning snapshot @1 (zfs) and cloning the live
 subvolume (btrfs).
 */
module ImageBackends {
  import opened Options
  import opened Images
  import opened ImageInvariant
  import opened ImageCoherence
  import opened ImageTheorems

  /** The same requests, locks, disks and live contents; btrfs takes no snapshots. */
  predicate Related(z: State, t: State) {
    && t.held == z.held && t.reqs == z.reqs && t.disks == z.disks && t.store.Keys == z.store.Keys
    && (forall n :: n in z.store ==> t.store[n] == Vol(z.store[n].live, None))
  }

  lemma RelatedClone(e: Config, z: State, t: State, src: Name)
    requires Acyclic(e) && Inv(ZFS, e, z) && Related(z, t) && CloneSource(ZFS, z, src).Some?
    ensures CloneSource(BTRFS, t, src) == CloneSource(ZFS, z, src)
  {
    assert VolumeOk(ZFS, e, z, src);
  }

  lemma RelatedReturn(z: State, t: State, r: ReqId)
    requires Related(z, t) && r in z.reqs && z.reqs[r].chain != []
    ensures Related(Return(z, r), Return(t, r))
  {
  }

  lemma RelatedGo(e: Config, z: State, t: State, r: ReqId)
    requires Related(z, t) && Running(e, z, r) && Goes(z.held[Innermost(z, r)].phase)
    requires !z.held[Innermost(z, r)].phase.Cloning?
    requires CanOk(ZFS, e, z, Innermost(z, r), z.held[Innermost(z, r)].phase)
    ensures CanOk(BTRFS, e, t, Innermost(t, r), t.held[Innermost(t, r)].phase)
    ensures Related(StepOk(ZFS, e, z, r), StepOk(BTRFS, e, t, r))
  {
    GoesOn(ZFS, e, z, r);
    GoesOn(BTRFS, e, t, r);
  }

  lemma RelatedCloning(e: Config, z: State, t: State, r: ReqId)
    requires Acyclic(e) && Inv(ZFS, e, z) && Related(z, t) && Running(e, z, r) && z.held[Innermost(z, r)].phase.Cloning?
    requires CanOk(ZFS, e, z, Innermost(z, r), z.held[Innermost(z, r)].phase)
    ensures CanOk(BTRFS, e, t, Innermost(t, r), t.held[Innermost(t, r)].phase)
    ensures Related(StepOk(ZFS, e, z, r), StepOk(BTRFS, e, t, r))
  {
    RelatedClone(e, z, t, e.images[Innermost(z, r)].parent.value);
  }

  lemma RelatedSeal(e: Config, z: State, t: State, r: ReqId)
    requires Related(z, t) && Running(e, z, r)
    requires z.held[Innermost(z, r)].phase.Sealing? || z.held[Innermost(z, r)].phase.SealingDownload?
    requires CanOk(ZFS, e, z, Innermost(z, r), z.held[Innermost(z, r)].phase)
    ensures CanOk(BTRFS, e, t, Innermost(t, r), t.held[Innermost(t, r)].phase)
    ensures Related(StepOk(ZFS, e, z, r), StepOk(BTRFS, e, t, r))
  {
    var n := Innermost(z, r);
    RelatedReturn(z.(store := Sealed(ZFS, z, n)), t.(store := Sealed(BTRFS, t, n)), r);
  }

  lemma RelatedRest(e: Config, z: State, t: State, r: ReqId)
    requires Related(z, t) && Running(e, z, r)
    requires z.held[Innermost(z, r)].phase.Checking? || z.held[Innermost(z, r)].phase.Destroying?
    requires CanOk(ZFS, e, z, Innermost(z, r), z.held[Innermost(z, r)].phase)
    ensures CanOk(BTRFS, e, t, Innermost(t, r), t.held[Innermost(t, r)].phase)
    ensures Related(StepOk(ZFS, e, z, r), StepOk(BTRFS, e, t, r))
  {
    if z.held[Innermost(z, r)].phase.Checking? && Innermost(z, r) in z.store {
      RelatedReturn(z, t, r);
    }
  }

  lemma RelatedOk(e: Config, z: State, t: State, r: ReqId)
    requires Acyclic(e) && Inv(ZFS, e, z) && Related(z, t) && Running(e, z, r)
    requires CanOk(ZFS, e, z, Innermost(z, r), z.held[Innermost(z, r)].phase)
    ensures CanOk(BTRFS, e, t, Innermost(t, r), t.held[Innermost(t, r)].phase)
    ensures Related(StepOk(ZFS, e, z, r), StepOk(BTRFS, e, t, r))
  {
    var n := Innermost(z, r);
    var phase := z.held[n].phase;
    if phase.Cloning? {
      RelatedCloning(e, z, t, r);
    } else if Goes(phase) {
      RelatedGo(e, z, t, r);
    } else if phase.Sealing? || phase.SealingDownload? {
      RelatedSeal(e, z, t, r);
    } else {
      RelatedRest(e, z, t, r);
    }
  }

  lemma RelatedNext(e: Config, z: State, t: State, a: Action)
    requires Acyclic(e) && Inv(ZFS, e, z) && Related(z, t) && Enabled(ZFS, e, z, a)
    ensures Enabled(BTRFS, e, t, a)
    ensures Related(Next(ZFS, e, z, a), Next(BTRFS, e, t, a))
  {
    match a
    case Ok(r) =>
      if z.reqs[r].want.None? {
        RelatedOk(e, z, t, r);
      }
    case CloneDisk(r, v) => RelatedClone(e, z, t, z.reqs[r].image);
    case Fail(r) => RelatedFail(e, z, t, r);
    case Delete(n) =>
    case Request(r, image) =>
  }

  lemma RelatedFail(e: Config, z: State, t: State, r: ReqId)
    requires Related(z, t) && r in z.reqs
    ensures Related(StepFail(e, z, r), StepFail(e, t, r))
  {
  }

  lemma RelatedInv(e: Config, z: State, t: State)
    requires Acyclic(e) && Inv(ZFS, e, z) && Related(z, t)
    ensures Inv(BTRFS, e, t)
  {
    LocksFrame(e, z, t);
    forall n | n in t.store ensures n in e.images && VolumeOk(BTRFS, e, t, n) {
      assert VolumeOk(ZFS, e, z, n);
    }
  }

  /** Every run on zfs whose failures are inside the try is also a run on btrfs, with the
      same images and disks at its end, and coherent there too. */
  lemma {:induction false} BackendsAgree(e: Config, z: State, t: State, acts: seq<Action>)
    requires Acyclic(e) && Inv(ZFS, e, z) && Related(z, t)
    requires ValidRun(ZFS, e, z, acts) && NoResidue(ZFS, e, z, acts)
    ensures ValidRun(BTRFS, e, t, acts) && AllHarmless(BTRFS, e, t, acts)
    ensures var z1, t1 := Final(ZFS, e, z, acts), Final(BTRFS, e, t, acts);
            Related(z1, t1) && Coherent(BTRFS, e, t1)
    decreases |acts|
  {
    RelatedInv(e, z, t);
    if acts == [] {
      InvIsCoherent(BTRFS, e, t);
    } else {
      var a := acts[0];
      RelatedNext(e, z, t, a);
      InvExactly(ZFS, e, z, a);
      RelatedInv(e, Next(ZFS, e, z, a), Next(BTRFS, e, t, a));
      InvExactly(BTRFS, e, t, a);
      BackendsAgree(e, Next(ZFS, e, z, a), Next(BTRFS, e, t, a), acts[1..]);
    }
  }

  // ------------------------------------------------- from btrfs back to zfs

  /** No command fails that would leave a volume behind on zfs. */
  predicate Careful(e: Config, t: State, acts: seq<Action>)
    requires ValidRun(BTRFS, e, t, acts)
    decreases |acts|
  {
    acts == [] ||
    (&& (acts[0].Fail? ==> !LeavesResidue(ZFS, e, t, acts[0].r))
     && Careful(e, Next(BTRFS, e, t, acts[0]), acts[1..]))
  }

  /** Every image has a parent or a url, all the way down. */
  predicate AllDefined(e: Config)
    requires Acyclic(e)
  {
    forall n :: n in e.images ==> Spec(e, n).Some?
  }

  lemma CanOkBack(e: Config, z: State, t: State, r: ReqId)
    requires Acyclic(e) && AllDefined(e) && Inv(ZFS, e, z) && Steady(e, z) && Related(z, t) && Running(e, z, r)
    requires CanOk(BTRFS, e, t, Innermost(t, r), t.held[Innermost(t, r)].phase)
    ensures CanOk(ZFS, e, z, Innermost(z, r), z.held[Innermost(z, r)].phase)
  {
    var n := Innermost(z, r);
    if z.held[n].phase.Cloning? {
      assert ReadyOrNothing(e, z, e.images[n].parent.value);
      ReadyIsCloned(ZFS, e, z, e.images[n].parent.value);
      assert n in z.store ==> VolumeOk(ZFS, e, z, n);
    }
  }

  lemma EnabledBack(e: Config, z: State, t: State, a: Action)
    requires Acyclic(e) && AllDefined(e) && Inv(ZFS, e, z) && Steady(e, z) && Related(z, t)
    requires Enabled(BTRFS, e, t, a)
    ensures Enabled(ZFS, e, z, a)
  {
    if a.Ok? && z.reqs[a.r].want.None? {
      CanOkBack(e, z, t, a.r);
    } else if a.CloneDisk? {
      assert ChainOk(e, z, a.r);
      assert ReadyOrNothing(e, z, z.reqs[a.r].image);
      ReadyIsCloned(ZFS, e, z, z.reqs[a.r].image);
    }
  }

  lemma StepBack(e: Config, z: State, t: State, a: Action)
    requires Acyclic(e) && AllDefined(e) && Inv(ZFS, e, z) && Steady(e, z) && Related(z, t)
    requires Enabled(BTRFS, e, t, a) && !a.Delete? && (a.Fail? ==> !LeavesResidue(ZFS, e, t, a.r))
    ensures Enabled(ZFS, e, z, a) && (a.Fail? ==> !LeavesResidue(ZFS, e, z, a.r))
    ensures var z1 := Next(ZFS, e, z, a);
            Inv(ZFS, e, z1) && Steady(e, z1) && Related(z1, Next(BTRFS, e, t, a))
  {
    EnabledBack(e, z, t, a);
    RelatedNext(e, z, t, a);
    SteadyHarmless(ZFS, e, z, a);
    InvExactly(ZFS, e, z, a);
    SteadyNext(ZFS, e, z, a);
  }

  /** Without hand deletions, when every image is defined, the converse holds: every btrfs run
      without such failures is a zfs run with the same images and disks. */
  lemma {:induction false} BackendsAgreeBack(e: Config, z: State, t: State, acts: seq<Action>)
    requires Acyclic(e) && AllDefined(e) && Inv(ZFS, e, z) && Steady(e, z) && Related(z, t)
    requires ValidRun(BTRFS, e, t, acts) && Careful(e, t, acts) && NoDelete(acts)
    ensures ValidRun(ZFS, e, z, acts) && NoResidue(ZFS, e, z, acts)
    ensures Related(Final(ZFS, e, z, acts), Final(BTRFS, e, t, acts))
    decreases |acts|
  {
    if acts != [] {
      var a := acts[0];
      StepBack(e, z, t, a);
      assert NoDelete(acts[1..]);
      BackendsAgreeBack(e, Next(ZFS, e, z, a), Next(BTRFS, e, t, a), acts[1..]);
    }
  }

  // ------------------------------------------------- a deletion that btrfs does not survive

  /** "b" is a download, "c" a plain copy of it. */
  function Small(): Config {
    Config(map["b" := ImageConf(None, Some("u"), []), "c" := ImageConf(Some("b"), None, [])], map["b" := 0, "c" := 1])
  }

  function Start(): State {
    State(map["b" := Vol([Fetch("u"), Resize], None)], map[], map[], map[])
  }

  /** Request 1 finds "b" and is about to clone it into "c" (5); somebody deletes "b" (6);
      request 2 starts to download it again (10); the clone copies an empty volume (11). */
  function BadState(k: nat): State {
    match k
    case 0 => Start()
    case 1 => Start().(reqs := map[1 := Req("c", [], Some("c"))])
    case 2 => Start().(held := map["c" := Held(1, Checking)], reqs := map[1 := Req("c", ["c"], None)])
    case 3 => Start().(held := map["c" := Held(1, InParent)], reqs := map[1 := Req("c", ["c"], Some("b"))])
    case 4 => Start().(held := map["c" := Held(1, InParent), "b" := Held(1, Checking)],
        reqs := map[1 := Req("c", ["c", "b"], None)])
    case 5 => Start().(held := map["c" := Held(1, Cloning)], reqs := map[1 := Req("c", ["c"], None)])
    case 6 => State(map[], map["c" := Held(1, Cloning)], map[1 := Req("c", ["c"], None)], map[])
    case 7 => State(map[], map["c" := Held(1, Cloning)],
        map[1 := Req("c", ["c"], None), 2 := Req("b", [], Some("b"))], map[])
    case 8 => State(map[], map["c" := Held(1, Cloning), "b" := Held(2, Checking)],
        map[1 := Req("c", ["c"], None), 2 := Req("b", ["b"], None)], map[])
    case 9 => State(map[], map["c" := Held(1, Cloning), "b" := Held(2, Creating)],
        map[1 := Req("c", ["c"], None), 2 := Req("b", ["b"], None)], map[])
    case 10 => State(map["b" := Vol([], None)], map["c" := Held(1, Cloning), "b" := Held(2, Fetching)],
        map[1 := Req("c", ["c"], None), 2 := Req("b", ["b"], None)], map[])
    case 11 => State(map["b" := Vol([], None), "c" := Vol([], None)],
        map["c" := Held(1, Sealing), "b" := Held(2, Fetching)],
        map[1 := Req("c", ["c"], None), 2 := Req("b", ["b"], None)], map[])
    case _ => State(map["b" := Vol([], None), "c" := Vol([], None)], map["b" := Held(2, Fetching)],
        map[1 := Req("c", [], None), 2 := Req("b", ["b"], None)], map[])
  }

  function BadAction(k: nat): Action {
    match k
    case 0 => Request(1, "c")
    case 1 => Ok(1)
    case 2 => Ok(1)
    case 3 => Ok(1)
    case 4 => Ok(1)
    case 5 => Delete("b")
    case 6 => Request(2, "b")
    case 7 => Ok(2)
    case 8 => Ok(2)
    case 9 => Ok(2)
    case 10 => Ok(1)
    case _ => Ok(1)
  }

  predicate BadStepOk(k: nat) {
    && Enabled(BTRFS, Small(), BadState(k), BadAction(k))
    && Next(BTRFS, Small(), BadState(k), BadAction(k)) == BadState(k + 1)
  }

  lemma Bad0()
    ensures BadStepOk(0)
  {
  }

  lemma Bad1()
    ensures BadStepOk(1)
  {
    assert [] + ["c"] == ["c"];
  }

  lemma Bad2()
    ensures BadStepOk(2)
  {
  }

  lemma Bad3()
    ensures BadStepOk(3)
  {
    assert ["c"] + ["b"] == ["c", "b"];
  }

  lemma Bad4()
    ensures BadStepOk(4)
  {
    assert ["c", "b"][..1] == ["c"];
  }

  lemma Bad5()
    ensures BadStepOk(5)
  {
  }

  lemma Bad6()
    ensures BadStepOk(6)
  {
  }

  lemma Bad7()
    ensures BadStepOk(7)
  {
    assert [] + ["b"] == ["b"];
  }

  lemma Bad8()
    ensures BadStepOk(8)
  {
  }

  lemma Bad9()
    ensures BadStepOk(9)
  {
  }

  lemma Bad10()
    ensures BadStepOk(10)
  {
  }

  lemma Bad11()
    ensures BadStepOk(11)
  {
    assert ["c"][..0] == [];
  }

  lemma Extend(b: Backend, e: Config, s: State, acts: seq<Action>, a: Action)
    requires ValidRun(b, e, s, acts) && Enabled(b, e, Final(b, e, s, acts), a)
    ensures ValidRun(b, e, s, acts + [a]) && Final(b, e, s, acts + [a]) == Next(b, e, Final(b, e, s, acts), a)
    decreases |acts|
  {
    if acts == [] {
      assert acts + [a] == [a];
    } else {
      Extend(b, e, Next(b, e, s, acts[0]), acts[1..], a);
      assert (acts + [a])[1..] == acts[1..] + [a];
    }
  }

  lemma BadSteps(k: nat)
    requires k < 12
    ensures BadStepOk(k)
  {
    match k
    case 0 => Bad0();
    case 1 => Bad1();
    case 2 => Bad2();
    case 3 => Bad3();
    case 4 => Bad4();
    case 5 => Bad5();
    case 6 => Bad6();
    case 7 => Bad7();
    case 8 => Bad8();
    case 9 => Bad9();
    case 10 => Bad10();
    case _ => Bad11();
  }

  lemma {:induction false} BadReach(k: nat) returns (acts: seq<Action>)
    requires k <= 12
    ensures ValidRun(BTRFS, Small(), Start(), acts) && Final(BTRFS, Small(), Start(), acts) == BadState(k)
    ensures |acts| == k && forall i :: 0 <= i < k ==> acts[i] == BadAction(i)
  {
    if k == 0 {
      acts := [];
    } else {
      acts := BadReach(k - 1);
      BadSteps(k - 1);
      Extend(BTRFS, Small(), Start(), acts, BadAction(k - 1));
      acts := acts + [BadAction(k - 1)];
    }
  }

  /** From a coherent store, without any failure, one deletion of an unlocked image makes
      btrfs finish an image with the wrong content. */
  lemma BtrfsDeletionBreaksCache() returns (acts: seq<Action>)
    ensures Acyclic(Small()) && Inv(BTRFS, Small(), Start()) && ValidRun(BTRFS, Small(), Start(), acts)
    ensures forall i :: 0 <= i < |acts| ==> !acts[i].Fail?
    ensures !Coherent(BTRFS, Small(), Final(BTRFS, Small(), Start(), acts))
  {
    acts := BadReach(12);
    assert VolumeOk(BTRFS, Small(), Start(), "b");
    assert Spec(Small(), "b") == Some([Fetch("u"), Resize]);
    assert Spec(Small(), "c") == Some([Fetch("u"), Resize] + Ops([]));
    assert BadState(12).store["c"].live == [];
  }
}
