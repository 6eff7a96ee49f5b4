/**
 What every step of the image store keeps, for both storage backends.
 */
module ImageInvariant {
  import opened Options
  import opened Images

  /** What the volume of an image under construction contains, None for "no volume". */
  function Expected(e: Config, n: Name, phase: Phase): Option<Content>
    requires Acyclic(e) && n in e.images
  {
    var conf := e.images[n];
    match phase
    case Checking => Spec(e, n)
    case InParent => None
    case Cloning => None
    case Creating => None
    case Fetching => Some([])
    case Resizing => if conf.url.Some? then Some([Fetch(conf.url.value)]) else None
    case SealingDownload => Spec(e, n)
    case Booting => Base(e, n)
    case Scripting(i) => Scripted(e, n, i)
    case Destroying(at) =>
      var c := Scripted(e, n, at);
      if c.Some? && at < |conf.scripts| then Some(c.value + [Broken(conf.scripts[at])]) else c
    case Sealing => Spec(e, n)
  }

  /** The base followed by the first `i` build scripts. */
  function Scripted(e: Config, n: Name, i: nat): Option<Content>
    requires Acyclic(e) && n in e.images
  {
    if Base(e, n).Some? && i <= |e.images[n].scripts|
    then Some(Base(e, n).value + Ops(e.images[n].scripts[..i])) else None
  }

  /** Which images go through a phase. */
  predicate ShapeOk(e: Config, n: Name, phase: Phase)
    requires n in e.images
  {
    var conf := e.images[n];
    match phase
    case Checking => true
    case InParent => conf.parent.Some?
    case Cloning => conf.parent.Some?
    case Creating => conf.parent.None? && conf.url.Some?
    case Fetching => conf.parent.None? && conf.url.Some?
    case Resizing => conf.parent.None? && conf.url.Some?
    case SealingDownload => conf.parent.None? && conf.url.Some?
    case Booting => conf.scripts != []
    case Scripting(i) => conf.scripts != [] && i <= |conf.scripts|
    case Destroying(at) => conf.scripts != [] && at <= |conf.scripts|
    case Sealing => true
  }

  /** A finished image: the recursively defined content and, on zfs, snapshot @1 of it. */
  predicate Finished(b: Backend, e: Config, n: Name, v: Vol)
    requires Acyclic(e) && n in e.images
  {
    Spec(e, n) == Some(v.live) && (b.ZFS? ==> v.snap == Some(v.live))
  }

  predicate VolumeOk(b: Backend, e: Config, s: State, n: Name)
    requires Acyclic(e) && n in e.images && n in s.store
  {
    var v := s.store[n];
    if n in s.held && !s.held[n].phase.Checking?
    then Expected(e, n, s.held[n].phase) == Some(v.live) && v.snap.None?
    else Finished(b, e, n, v)
  }

  predicate HeldOk(e: Config, s: State, n: Name)
    requires n in s.held
  {
    && n in e.images && ShapeOk(e, n, s.held[n].phase)
    && s.held[n].owner in s.reqs && n in s.reqs[s.held[n].owner].chain
  }

  /** Link `i` of the chain of `r`: it is locked by `r`, and all but the last wait in
      build_image(parent) for the next. */
  predicate LinkOk(e: Config, s: State, r: ReqId, i: nat)
    requires r in s.reqs && i < |s.reqs[r].chain|
  {
    var q := s.reqs[r];
    var n := q.chain[i];
    && n in s.held && s.held[n].owner == r && n in e.images
    && (s.held[n].phase.InParent? <==> i + 1 < |q.chain| || q.want.Some?)
    && (i + 1 < |q.chain| ==> e.images[n].parent == Some(q.chain[i + 1]))
    && (i + 1 == |q.chain| && q.want.Some? ==> e.images[n].parent == q.want)
  }

  predicate ChainOk(e: Config, s: State, r: ReqId)
    requires r in s.reqs
  {
    var q := s.reqs[r];
    && q.image in e.images
    && (q.want.Some? ==> q.want.value in e.images)
    && (q.chain == [] && q.want.Some? ==> q.want.value == q.image)
    && (q.chain != [] ==> q.chain[0] == q.image)
    && forall i :: 0 <= i < |q.chain| ==> LinkOk(e, s, r, i)
  }

  predicate DiskOk(e: Config, d: Disk)
    requires Acyclic(e)
  {
    d.image in e.images && Spec(e, d.image) == Some(d.content)
  }

  predicate LocksOk(e: Config, s: State) {
    && (forall n :: n in s.held ==> HeldOk(e, s, n))
    && (forall r :: r in s.reqs ==> ChainOk(e, s, r))
  }

  predicate StoreOk(b: Backend, e: Config, s: State)
    requires Acyclic(e)
  {
    && (forall n :: n in s.store ==> n in e.images && VolumeOk(b, e, s, n))
    && (forall v :: v in s.disks ==> DiskOk(e, s.disks[v]))
  }

  predicate Inv(b: Backend, e: Config, s: State)
    requires Acyclic(e)
  {
    LocksOk(e, s) && StoreOk(b, e, s)
  }

  // ------------------------------------------------- locks

  lemma RankFalls(e: Config, s: State, r: ReqId, i: nat, j: nat)
    requires Acyclic(e) && r in s.reqs && ChainOk(e, s, r) && i <= j < |s.reqs[r].chain|
    ensures var c := s.reqs[r].chain;
            c[i] in e.images && c[j] in e.images && e.rank[c[j]] <= e.rank[c[i]]
                && (i < j ==> e.rank[c[j]] < e.rank[c[i]])
    decreases j - i
  {
    assert LinkOk(e, s, r, i) && LinkOk(e, s, r, j);
    if i < j {
      RankFalls(e, s, r, i + 1, j);
      assert LinkOk(e, s, r, i + 1);
    }
  }

  /** No request locks an image twice, so the innermost image is not further out. */
  lemma InnermostIsNew(e: Config, s: State, r: ReqId, i: nat)
    requires Acyclic(e) && r in s.reqs && ChainOk(e, s, r) && i + 1 < |s.reqs[r].chain|
    ensures s.reqs[r].chain[i] != Innermost(s, r)
  {
    RankFalls(e, s, r, i, |s.reqs[r].chain| - 1);
  }

  /** A change of the phase of the innermost build of `r`. */
  lemma SetPhaseLocks(e: Config, s: State, r: ReqId, p: Phase)
    requires Acyclic(e) && LocksOk(e, s) && Running(e, s, r)
    requires !p.InParent? && ShapeOk(e, Innermost(s, r), p)
    ensures LocksOk(e, SetPhase(s, Innermost(s, r), p))
  {
    var n := Innermost(s, r);
    var s1 := SetPhase(s, n, p);
    assert HeldOk(e, s, n);
    assert LinkOk(e, s, r, |s.reqs[r].chain| - 1);
    forall m | m in s1.held ensures HeldOk(e, s1, m) {
      assert HeldOk(e, s, m);
    }
    forall q | q in s1.reqs ensures ChainOk(e, s1, q) {
      assert ChainOk(e, s, q);
      forall i | 0 <= i < |s.reqs[q].chain| ensures LinkOk(e, s1, q, i) {
        assert LinkOk(e, s, q, i);
        if q == r && i + 1 < |s.reqs[r].chain| {
          InnermostIsNew(e, s, r, i);
        }
      }
    }
  }

  lemma AcquireLocks(e: Config, s: State, r: ReqId)
    requires Acyclic(e) && LocksOk(e, s) && r in s.reqs
    requires s.reqs[r].want.Some? && s.reqs[r].want.value !in s.held
    ensures LocksOk(e, Acquire(s, r))
  {
    var s1 := Acquire(s, r);
    var n := s.reqs[r].want.value;
    assert ChainOk(e, s, r);
    forall m | m in s1.held ensures HeldOk(e, s1, m) {
      assert m != n ==> HeldOk(e, s, m);
    }
    forall q | q in s1.reqs ensures ChainOk(e, s1, q) {
      assert ChainOk(e, s, q);
      forall i | 0 <= i < |s1.reqs[q].chain| ensures LinkOk(e, s1, q, i) {
        if i < |s.reqs[q].chain| {
          assert LinkOk(e, s, q, i);
        }
      }
    }
  }

  lemma EnterParentLocks(e: Config, s: State, r: ReqId)
    requires Acyclic(e) && LocksOk(e, s) && Running(e, s, r) && e.images[Innermost(s, r)].parent.Some?
    ensures var s1 := SetPhase(s, Innermost(s, r), InParent);
            LocksOk(e, s1.(reqs := s1.reqs[r := s1.reqs[r].(want := e.images[Innermost(s, r)].parent)]))
  {
    var n := Innermost(s, r);
    var s1 := SetPhase(s, n, InParent).(reqs := s.reqs[r := s.reqs[r].(want := e.images[n].parent)]);
    assert LinkOk(e, s, r, |s.reqs[r].chain| - 1);
    forall m | m in s1.held ensures HeldOk(e, s1, m) {
      assert HeldOk(e, s, m);
    }
    forall q | q in s1.reqs ensures ChainOk(e, s1, q) {
      assert ChainOk(e, s, q);
      forall i | 0 <= i < |s1.reqs[q].chain| ensures LinkOk(e, s1, q, i) {
        assert LinkOk(e, s, q, i);
        if q == r && i + 1 < |s.reqs[r].chain| {
          InnermostIsNew(e, s, r, i);
        }
      }
    }
  }

  lemma AbortLocks(e: Config, s: State, r: ReqId)
    requires LocksOk(e, s)
    ensures LocksOk(e, Abort(s, r))
  {
    var s1 := Abort(s, r);
    forall m | m in s1.held ensures HeldOk(e, s1, m) {
      assert HeldOk(e, s, m);
    }
    forall q | q in s1.reqs ensures ChainOk(e, s1, q) {
      assert ChainOk(e, s, q);
      forall i | 0 <= i < |s1.reqs[q].chain| ensures LinkOk(e, s1, q, i) {
        assert LinkOk(e, s, q, i);
      }
    }
  }

  lemma ReturnShape(e: Config, s: State, r: ReqId, m: Name)
    requires Acyclic(e) && LocksOk(e, s) && Running(e, s, r) && m in Return(s, r).held
    ensures m in e.images && ShapeOk(e, m, Return(s, r).held[m].phase)
  {
    var k := |s.reqs[r].chain| - 1;
    if k > 0 {
      assert LinkOk(e, s, r, k - 1);
    }
    assert HeldOk(e, s, m);
  }

  lemma ReturnHeld(e: Config, s: State, r: ReqId, m: Name)
    requires Acyclic(e) && LocksOk(e, s) && Running(e, s, r) && m in Return(s, r).held
    ensures HeldOk(e, Return(s, r), m)
  {
    ReturnShape(e, s, r, m);
    assert HeldOk(e, s, m);
    InFront(s.reqs[r].chain, m);
    assert Return(s, r).held[m].owner == s.held[m].owner;
  }

  lemma InFront(c: seq<Name>, m: Name)
    requires c != []
    ensures m in c ==> m == c[|c| - 1] || m in c[..|c| - 1]
  {
  }

  lemma ReturnHelds(e: Config, s: State, r: ReqId)
    requires Acyclic(e) && LocksOk(e, s) && Running(e, s, r)
    ensures forall m :: m in Return(s, r).held ==> HeldOk(e, Return(s, r), m)
  {
    var s1 := Return(s, r);
    var c := s.reqs[r].chain;
    forall m | m in s1.held ensures HeldOk(e, s1, m) {
      ReturnHeld(e, s, r, m);
    }
  }

  lemma ReturnLink(e: Config, s: State, r: ReqId, i: nat)
    requires Acyclic(e) && LocksOk(e, s) && Running(e, s, r) && i + 1 < |s.reqs[r].chain|
    ensures LinkOk(e, Return(s, r), r, i)
  {
    var k := |s.reqs[r].chain| - 1;
    assert LinkOk(e, s, r, i) && LinkOk(e, s, r, k) && LinkOk(e, s, r, k - 1);
    InnermostIsNew(e, s, r, i);
    if i < k - 1 {
      RankFalls(e, s, r, i, k - 1);
      assert s.reqs[r].chain[i] != s.reqs[r].chain[k - 1];
    }
  }

  lemma ReturnLinkOther(e: Config, s: State, r: ReqId, q: ReqId, i: nat)
    requires Acyclic(e) && LocksOk(e, s) && Running(e, s, r) && q in s.reqs && q != r && i < |s.reqs[q].chain|
    ensures LinkOk(e, Return(s, r), q, i)
  {
    var k := |s.reqs[r].chain| - 1;
    assert LinkOk(e, s, q, i) && LinkOk(e, s, r, k);
    if k > 0 {
      assert LinkOk(e, s, r, k - 1);
    }
  }

  lemma ReturnLocks(e: Config, s: State, r: ReqId)
    requires Acyclic(e) && LocksOk(e, s) && Running(e, s, r)
    ensures LocksOk(e, Return(s, r))
  {
    var s1 := Return(s, r);
    ReturnHelds(e, s, r);
    forall q | q in s1.reqs ensures ChainOk(e, s1, q) {
      assert ChainOk(e, s, q);
      forall i | 0 <= i < |s1.reqs[q].chain| ensures LinkOk(e, s1, q, i) {
        if q == r {
          ReturnLink(e, s, r, i);
        } else {
          ReturnLinkOther(e, s, r, q, i);
        }
      }
    }
  }

  /** LocksOk does not look at the volumes or the disks. */
  lemma LocksFrame(e: Config, s: State, s1: State)
    requires LocksOk(e, s) && s1.held == s.held && s1.reqs == s.reqs
    ensures LocksOk(e, s1)
  {
    forall m | m in s1.held ensures HeldOk(e, s1, m) {
      assert HeldOk(e, s, m);
    }
    forall q | q in s1.reqs ensures ChainOk(e, s1, q) {
      assert ChainOk(e, s, q);
      forall i | 0 <= i < |s1.reqs[q].chain| ensures LinkOk(e, s1, q, i) {
        assert LinkOk(e, s, q, i);
      }
    }
  }

  lemma RequestLocks(e: Config, s: State, r: ReqId, image: Name)
    requires LocksOk(e, s) && r !in s.reqs && image in e.images
    ensures LocksOk(e, s.(reqs := s.reqs[r := Req(image, [], Some(image))]))
  {
    var s1 := s.(reqs := s.reqs[r := Req(image, [], Some(image))]);
    forall m | m in s1.held ensures HeldOk(e, s1, m) {
      assert HeldOk(e, s, m);
    }
    forall q | q in s1.reqs ensures ChainOk(e, s1, q) {
      if q != r {
        assert ChainOk(e, s, q);
        forall i | 0 <= i < |s1.reqs[q].chain| ensures LinkOk(e, s1, q, i) {
          assert LinkOk(e, s, q, i);
        }
      }
    }
  }

  lemma ForgetLocks(e: Config, s: State, r: ReqId)
    requires LocksOk(e, s) && r in s.reqs && s.reqs[r].chain == []
    ensures LocksOk(e, s.(reqs := s.reqs - {r}))
  {
    var s1 := s.(reqs := s.reqs - {r});
    forall m | m in s1.held ensures HeldOk(e, s1, m) {
      assert HeldOk(e, s, m);
    }
    forall q | q in s1.reqs ensures ChainOk(e, s1, q) {
      assert ChainOk(e, s, q);
      forall i | 0 <= i < |s1.reqs[q].chain| ensures LinkOk(e, s1, q, i) {
        assert LinkOk(e, s, q, i);
      }
    }
  }

  lemma CheckingLocks(b: Backend, e: Config, s: State, r: ReqId)
    requires Acyclic(e) && LocksOk(e, s) && Running(e, s, r) && s.held[Innermost(s, r)].phase.Checking?
    ensures LocksOk(e, StepOk(b, e, s, r))
  {
    var n := Innermost(s, r);
    if n in s.store {
      ReturnLocks(e, s, r);
    } else if e.images[n].parent.Some? {
      EnterParentLocks(e, s, r);
    } else if e.images[n].url.Some? {
      SetPhaseLocks(e, s, r, Creating);
    } else {
      SetPhaseLocks(e, s, r, AfterBase(e.images[n]));
    }
  }

  /** The phase after a command that neither returns nor raises. */
  function Following(conf: ImageConf, phase: Phase): Phase {
    match phase
    case Cloning => AfterBase(conf)
    case Creating => Fetching
    case Fetching => Resizing
    case Resizing => SealingDownload
    case Booting => Scripting(0)
    case Scripting(i) => if i < |conf.scripts| then Scripting(i + 1) else Sealing
    case _ => phase
  }

  predicate Goes(phase: Phase) {
    phase.Cloning? || phase.Creating? || phase.Fetching? || phase.Resizing? || phase.Booting? || phase.Scripting?
  }

  lemma GoesOn(b: Backend, e: Config, s: State, r: ReqId)
    requires Running(e, s, r) && Goes(s.held[Innermost(s, r)].phase)
    requires CanOk(b, e, s, Innermost(s, r), s.held[Innermost(s, r)].phase)
    ensures var n := Innermost(s, r);
            var s1 := StepOk(b, e, s, r);
            s1 == SetPhase(s.(store := s1.store), n, Following(e.images[n], s.held[n].phase))
  {
  }

  lemma StepOkLocks(b: Backend, e: Config, s: State, r: ReqId)
    requires Acyclic(e) && LocksOk(e, s) && Running(e, s, r)
    requires CanOk(b, e, s, Innermost(s, r), s.held[Innermost(s, r)].phase)
    ensures LocksOk(e, StepOk(b, e, s, r))
  {
    var n := Innermost(s, r);
    var s0 := s.(store := StepOk(b, e, s, r).store);
    LocksFrame(e, s, s0);
    assert HeldOk(e, s, n);
    if s.held[n].phase.Checking? {
      CheckingLocks(b, e, s, r);
    } else if s.held[n].phase.SealingDownload? || s.held[n].phase.Sealing? {
      ReturnLocks(e, s0, r);
    } else if s.held[n].phase.Destroying? {
      AbortLocks(e, s0, r);
    } else if Goes(s.held[n].phase) {
      GoesOn(b, e, s, r);
      SetPhaseLocks(e, s0, r, Following(e.images[n], s.held[n].phase));
    }
  }

  lemma StepFailLocks(e: Config, s: State, r: ReqId)
    requires Acyclic(e) && LocksOk(e, s) && r in s.reqs
    ensures LocksOk(e, StepFail(e, s, r))
  {
    if Running(e, s, r) && s.held[Innermost(s, r)].phase.Scripting? {
      var s0 := s.(store := StepFail(e, s, r).store);
      assert HeldOk(e, s, Innermost(s, r));
      LocksFrame(e, s, s0);
      SetPhaseLocks(e, s0, r, Destroying(s.held[Innermost(s, r)].phase.i));
    } else {
      AbortLocks(e, s, r);
    }
  }

  /** Mutual exclusion and the discipline of the parent chain hold in every run. */
  lemma NextLocks(b: Backend, e: Config, s: State, a: Action)
    requires Acyclic(e) && LocksOk(e, s) && Enabled(b, e, s, a)
    ensures LocksOk(e, Next(b, e, s, a))
  {
    match a
    case Request(r, image) => RequestLocks(e, s, r, image);
    case Delete(n) => LocksFrame(e, s, Next(b, e, s, a));
    case Ok(r) =>
      if s.reqs[r].want.Some? {
        AcquireLocks(e, s, r);
      } else {
        StepOkLocks(b, e, s, r);
      }
    case Fail(r) => StepFailLocks(e, s, r);
    case CloneDisk(r, v) =>
      ForgetLocks(e, s, r);
      LocksFrame(e, s.(reqs := s.reqs - {r}), Next(b, e, s, a));
  }
}
